/**
 * The researcher directory (backend/controller/researcher.controller.js): a role filter
 * over the `users` table followed by a projection with fixed defaults.
 */
module ResearcherController {
  import opened Wrappers

  /** The `users` columns the projection reads; `None` is NULL or an absent column. */
  datatype UserRow = UserRow(id: int, username: Option<string>, email: Option<string>, phone: Option<string>,
                             role: Option<string>)

  datatype ResearcherCard = ResearcherCard(id: int, name: string, profilePic: string, field: string,
                                           institution: string, ongoingResearch: seq<string>, contact: string)

  /** `role = $1 OR role = $2` with 'researcher' and 'Researcher'. */
  predicate IsResearcher(u: UserRow) {
    u.role == Some("researcher") || u.role == Some("Researcher")
  }

  /** `a || b` on a text column: NULL and "" are falsy. */
  function OrElse(v: Option<string>, fallback: string): (r: string)
    ensures v.Some? && v.value != "" ==> r == v.value
    ensures v.None? || v.value == "" ==> r == fallback
  {
    if v.Some? && v.value != "" then v.value else fallback
  }

  /** The object built for one user. */
  function ToCard(u: UserRow): (c: ResearcherCard)
    ensures c.id == u.id
    ensures c.name == OrElse(u.username, "Researcher")
    ensures c.contact == OrElse(u.email, OrElse(u.phone, "No contact available"))
    ensures c.profilePic == "/meera.png" && c.field == "Medical Research" &&
            c.institution == "Research Institution" && c.ongoingResearch == ["Research in progress"]
  {
    ResearcherCard(u.id, OrElse(u.username, "Researcher"), "/meera.png", "Medical Research", "Research Institution",
                   ["Research in progress"], OrElse(u.email, OrElse(u.phone, "No contact available")))
  }

  /** The rows the query returns, in table order. */
  function Researchers(users: seq<UserRow>): (r: seq<UserRow>)
    ensures |r| <= |users|
    ensures forall u :: u in r ==> IsResearcher(u) && u in users
  {
    if users == [] then []
    else (if IsResearcher(users[0]) then [users[0]] else []) + Researchers(users[1..])
  }

  /** `getResearchers`: one card per matched user. */
  function GetResearchers(users: seq<UserRow>): (r: seq<ResearcherCard>)
    ensures |r| == |Researchers(users)|
    ensures forall k :: 0 <= k < |r| ==> r[k] == ToCard(Researchers(users)[k])
  {
    seq(|Researchers(users)|, k requires 0 <= k < |Researchers(users)| => ToCard(Researchers(users)[k]))
  }

  /** Every user with a researcher role is kept, and nobody else. */
  lemma {:induction false} ResearchersExactly(users: seq<UserRow>, u: UserRow)
    ensures u in Researchers(users) <==> u in users && IsResearcher(u)
  {
    if users != [] {
      ResearchersExactly(users[1..], u);
      assert users == [users[0]] + users[1..];
    }
  }

  /** Filtering keeps the table's order: it distributes over concatenation. */
  lemma {:induction false} ResearchersAppend(a: seq<UserRow>, b: seq<UserRow>)
    ensures Researchers(a + b) == Researchers(a) + Researchers(b)
  {
    if a == [] {
      assert a + b == b;
    } else {
      assert (a + b)[0] == a[0];
      assert (a + b)[1..] == a[1..] + b;
      ResearchersAppend(a[1..], b);
    }
  }

  /** So do the cards: the cards of two tables are the cards of each, in order. */
  lemma GetResearchersAppend(a: seq<UserRow>, b: seq<UserRow>)
    ensures GetResearchers(a + b) == GetResearchers(a) + GetResearchers(b)
  {
    ResearchersAppend(a, b);
    var ra, rb := Researchers(a), Researchers(b);
    var all, ca, cb := GetResearchers(a + b), GetResearchers(a), GetResearchers(b);
    assert |all| == |ca| + |cb|;
    forall k | 0 <= k < |all|
      ensures all[k] == (ca + cb)[k]
    {
      if k < |ra| {
        assert (ra + rb)[k] == ra[k];
      } else {
        assert (ra + rb)[k] == rb[k - |ra|];
      }
    }
  }

  /** Rows made by sign-up have no `email` column, so the contact is the phone, or the default. */
  lemma ContactWithoutEmail(u: UserRow)
    requires u.email.None?
    ensures ToCard(u).contact == OrElse(u.phone, "No contact available")
  {
  }
}
