/**
 * The patient's record upload page (src/assets/pages/Records.jsx).
 *
 * The `records`, `showModal` and `newRecord` state are the fields of class `RecordsPage`.
 * `Date.now()` and the formatted date of the day are parameters of the submit handler,
 * and a selected file is reduced to its name.
 */
module RecordsPage {
  import opened JsValues

  datatype UploadedFile = UploadedFile(name: string)

  /** The `newRecord` form. */
  datatype Form = Form(kind: string, files: nat, rate: string, notes: string,
                       filesData: seq<UploadedFile>, fileNames: seq<string>)

  /** A submitted record: the form's fields plus `id` and `date`. */
  datatype StoredRecord = StoredRecord(kind: string, files: nat, rate: string, notes: string,
                                       filesData: seq<UploadedFile>, fileNames: seq<string>, id: int, date: string)

  /** The form as it starts and as every successful submit leaves it. */
  const EmptyForm := Form("", 0, "", "", [], [])

  /** The inputs wired to `handleChange`, by their `name` attribute. */
  datatype Field = TypeField | NotesField

  /** `files.map((file) => file.name)`. */
  function Names(files: seq<UploadedFile>): (names: seq<string>)
    ensures |names| == |files| && forall k :: 0 <= k < |files| ==> names[k] == files[k].name
  {
    seq(|files|, k requires 0 <= k < |files| => files[k].name)
  }

  /** The file fields of a form describe the same files. */
  predicate FilesAgree(files: nat, filesData: seq<UploadedFile>, fileNames: seq<string>) {
    files == |filesData| && fileNames == Names(filesData)
  }

  predicate FormOk(f: Form) {
    AllDigits(f.rate) && FilesAgree(f.files, f.filesData, f.fileNames)
  }

  /** A stored record has at least one file, the files it says, and a numeric rate. */
  predicate StoredOk(r: StoredRecord) {
    r.files >= 1 && AllDigits(r.rate) && FilesAgree(r.files, r.filesData, r.fileNames)
  }

  /** `{ ...newRecord, id, date }`. */
  function ToStored(f: Form, id: int, date: string): (r: StoredRecord)
    ensures r.kind == f.kind && r.files == f.files && r.rate == f.rate && r.notes == f.notes
    ensures r.filesData == f.filesData && r.fileNames == f.fileNames && r.id == id && r.date == date
  {
    StoredRecord(f.kind, f.files, f.rate, f.notes, f.filesData, f.fileNames, id, date)
  }

  /** A checked form with a file becomes a well-formed record. */
  lemma SubmittedRecordOk(f: Form, id: int, date: string)
    requires FormOk(f) && f.files != 0
    ensures StoredOk(ToStored(f, id, date))
  {
  }

  /** The rate's `/^\d*$/` test accepts exactly the digit strings, the empty one included. */
  lemma RateFilter(val: string, c: char)
    ensures AllDigits("") && (AllDigits(val + [c]) <==> AllDigits(val) && IsDigit(c))
  {
    if AllDigits(val + [c]) {
      assert forall k :: 0 <= k < |val| ==> val[k] == (val + [c])[k];
      assert (val + [c])[|val|] == c;
    }
  }

  class RecordsPage {
    var records: seq<StoredRecord>
    var showModal: bool
    var newRecord: Form

    ghost predicate Valid()
      reads this
    {
      FormOk(newRecord) && forall k :: 0 <= k < |records| ==> StoredOk(records[k])
    }

    constructor ()
      ensures Valid() && records == [] && !showModal && newRecord == EmptyForm
    {
      records := [];
      showModal := false;
      newRecord := EmptyForm;
    }

    /** The "+ New Record" button. */
    method OpenModal()
      modifies this`showModal
      ensures showModal
    {
      showModal := true;
    }

    /** The modal's close button. */
    method CloseModal()
      modifies this`showModal
      ensures !showModal
    {
      showModal := false;
    }

    /** `handleChange`: only the named field takes the new value. */
    method HandleChange(field: Field, value: string)
      requires Valid()
      modifies this`newRecord
      ensures Valid()
      ensures newRecord == match field
                           case TypeField => old(newRecord).(kind := value)
                           case NotesField => old(newRecord).(notes := value)
    {
      match field {
        case TypeField => newRecord := newRecord.(kind := value);
        case NotesField => newRecord := newRecord.(notes := value);
      }
    }

    /** `handleFileChange`: the selection replaces the form's files, their count and their names. */
    method HandleFileChange(selected: seq<UploadedFile>)
      requires Valid()
      modifies this`newRecord
      ensures Valid()
      ensures newRecord == old(newRecord).(filesData := selected, files := |selected|, fileNames := Names(selected))
      ensures newRecord.fileNames == Names(selected) && newRecord.files == |selected|
    {
      newRecord := newRecord.(filesData := selected, files := |selected|, fileNames := Names(selected));
    }

    /** The rate input's `onChange`: only an all-digit value (possibly empty) is taken. */
    method HandleRateChange(value: string)
      requires Valid()
      modifies this`newRecord
      ensures Valid()
      ensures newRecord == if AllDigits(value) then old(newRecord).(rate := value) else old(newRecord)
    {
      if AllDigits(value) {
        newRecord := newRecord.(rate := value);
      }
    }

    /** `handleSubmit`. Without a file it only alerts; otherwise the form is appended as a record
        with `id` and `date`, the form is reset and the modal closed. */
    method HandleSubmit(now: int, today: string) returns (alerted: bool)
      requires Valid()
      modifies this
      ensures Valid()
      ensures alerted <==> old(newRecord).files == 0
      ensures alerted ==> records == old(records) && newRecord == old(newRecord) && showModal == old(showModal)
      ensures !alerted ==>
        records == old(records) + [ToStored(old(newRecord), now, today)] && newRecord == EmptyForm && !showModal
    {
      if newRecord.files == 0 {
        return true;
      }
      SubmittedRecordOk(newRecord, now, today);
      records := records + [ToStored(newRecord, now, today)];
      newRecord := EmptyForm;
      showModal := false;
      alerted := false;
    }
  }
}
