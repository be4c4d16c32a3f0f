/** The reporter's `testMap`: test titles to Jira issue ids, kept in the
    order in which `Object.keys` enumerates them. */
module TicketMaps {
  import opened Wrappers

  datatype Entry = Entry(title: string, issueId: string)

  /** The entries in enumeration order. An object holds each key once
      (`DistinctTitles`); lookups below take the first entry for a title,
      which under that condition is the only one. */
  type TicketMap = seq<Entry>

  /** Each title appears at most once, as the keys of an object do. */
  ghost predicate DistinctTitles(m: TicketMap) {
    forall i, j :: 0 <= i < j < |m| ==> m[i].title != m[j].title
  }

  /** `testMap[title]`: the issue id stored under `title`, or `undefined`.
      What it finds is stated by `LookupIsFirstEntry`. */
  function Lookup(m: TicketMap, title: string): Option<string>
  {
    if |m| == 0 then None
    else if m[0].title == title then Some(m[0].issueId)
    else Lookup(m[1..], title)
  }

  /** `testMap[Object.keys(testMap)[0]]`. With no keys the title is
      `undefined`, which an empty object does not hold either. */
  function FirstIssueId(m: TicketMap): (r: Option<string>)
    ensures r.Some? <==> |m| > 0
    ensures |m| > 0 ==> r == Some(m[0].issueId)
  {
    if |m| == 0 then None else Lookup(m, m[0].title)
  }

  /** `Lookup` finds the first entry with the title, and finds nothing
      exactly when no entry has it. */
  lemma {:induction false} LookupIsFirstEntry(m: TicketMap, title: string)
    ensures Lookup(m, title).None? <==> forall i :: 0 <= i < |m| ==> m[i].title != title
    ensures Lookup(m, title).Some? ==>
              exists k :: 0 <= k < |m| && m[k] == Entry(title, Lookup(m, title).value)
                          && forall j :: 0 <= j < k ==> m[j].title != title
    decreases |m|
  {
    if |m| > 0 && m[0].title != title {
      LookupIsFirstEntry(m[1..], title);
      assert forall i :: 1 <= i < |m| ==> m[i] == m[1..][i - 1];
      if Lookup(m, title).Some? {
        var k :| 0 <= k < |m[1..]| && m[1..][k] == Entry(title, Lookup(m, title).value)
                 && forall j :: 0 <= j < k ==> m[1..][j].title != title;
        assert m[k + 1] == Entry(title, Lookup(m, title).value);
        assert forall j :: 1 <= j < k + 1 ==> m[j].title != title;
      }
    }
  }

  /** Every entry of an object is found under its own title. */
  lemma LookupFindsEntry(m: TicketMap, i: nat)
    requires DistinctTitles(m)
    requires i < |m|
    ensures Lookup(m, m[i].title) == Some(m[i].issueId)
  {
    LookupIsFirstEntry(m, m[i].title);
  }
}
