// The review inbox: pages fetched by cursor, and merged into one row per medium.

module Inbox {
  import opened Text
  import opened CompanionTags
  import opened CompanionApply

  datatype Item = Item(
    mediaId: string, title: string, createdAt: int, analyzed: bool, runId: Option<string>, completedAt: Option<int>,
    unopened: bool)

  /** `sanitizeReviewInboxItems` keeps these. */
  predicate WellFormed(x: Item) {
    && IsUuid(x.mediaId) && x.title != "" && x.createdAt >= 0
    && (if x.analyzed then x.runId.Some? && IsUuid(x.runId.value) && x.completedAt.Some? && x.completedAt.value >= 0
        else x.runId.None? && x.completedAt.None? && !x.unopened)
  }

  function Sanitized(items: seq<Item>): seq<Item> {
    if items == [] then []
    else
      Sanitized(items[..|items| - 1]) + (if WellFormed(items[|items| - 1]) then [items[|items| - 1]] else [])
  }

  // ---- what the merge should give -------------------------------------------------------------

  /** The media in the order of their first rows. */
  function FirstIds(rows: seq<Item>): seq<string> {
    if rows == [] then []
    else
      var ids, last := FirstIds(rows[..|rows| - 1]), rows[|rows| - 1].mediaId;
      if last in ids then ids else ids + [last]
  }

  /** The first row of a medium that satisfies the flag asked for. */
  function FirstRow(rows: seq<Item>, id: string, analyzedOnly: bool): Option<Item> {
    if rows == [] then None
    else if rows[0].mediaId == id && (analyzedOnly ==> rows[0].analyzed) then Some(rows[0])
    else FirstRow(rows[1..], id, analyzedOnly)
  }

  /** The first analyzed row of a medium if there is one, else its first row. */
  function Pick(rows: seq<Item>, id: string): Option<Item> {
    if FirstRow(rows, id, true).Some? then FirstRow(rows, id, true) else FirstRow(rows, id, false)
  }

  /** One row per medium, each at the place where the medium first appears. */
  ghost predicate MergeOf(items: seq<Item>, rows: seq<Item>) {
    && |items| == |FirstIds(rows)|
    && forall i :: 0 <= i < |items| ==> Pick(rows, FirstIds(rows)[i]) == Some(items[i])
  }

  lemma {:induction false} FirstRowOfMore(rows: seq<Item>, x: Item, id: string, analyzedOnly: bool)
    ensures FirstRow(rows + [x], id, analyzedOnly)
            == if FirstRow(rows, id, analyzedOnly).Some? then FirstRow(rows, id, analyzedOnly)
               else if x.mediaId == id && (analyzedOnly ==> x.analyzed) then Some(x) else None
  {
    if rows == [] {
      assert ([] + [x])[1..] == [];
    } else {
      FirstRowOfMore(rows[1..], x, id, analyzedOnly);
      assert (rows + [x])[1..] == rows[1..] + [x];
    }
  }

  lemma {:induction false} FirstRowIsOfMedium(rows: seq<Item>, id: string, analyzedOnly: bool)
    ensures var r := FirstRow(rows, id, analyzedOnly);
            r.Some? ==> r.value.mediaId == id && r.value in rows && (analyzedOnly ==> r.value.analyzed)
  {
    if rows != [] {
      FirstRowIsOfMedium(rows[1..], id, analyzedOnly);
      assert rows == [rows[0]] + rows[1..];
    }
  }

  lemma {:induction false} FirstIdsAre(rows: seq<Item>)
    ensures NoRepeats(FirstIds(rows))
    ensures forall id :: id in FirstIds(rows) <==> FirstRow(rows, id, false).Some?
  {
    if rows != [] {
      var n := |rows| - 1;
      FirstIdsAre(rows[..n]);
      assert rows == rows[..n] + [rows[n]];
      forall id
        ensures FirstRow(rows, id, false).Some? <==> FirstRow(rows[..n], id, false).Some? || rows[n].mediaId == id
      {
        FirstRowOfMore(rows[..n], rows[n], id, false);
      }
    }
  }

  /** How the pick of a medium changes with one more row. */
  lemma PickOfMore(rows: seq<Item>, x: Item, id: string)
    ensures Pick(rows + [x], id)
            == if x.mediaId != id then Pick(rows, id)
               else if Pick(rows, id).None? then Some(x)
               else if !Pick(rows, id).value.analyzed && x.analyzed then Some(x) else Pick(rows, id)
  {
    FirstRowOfMore(rows, x, id, true);
    FirstRowOfMore(rows, x, id, false);
    FirstRowIsOfMedium(rows, id, true);
    AnalyzedIsFound(rows, id);
  }

  lemma {:induction false} AnalyzedIsFound(rows: seq<Item>, id: string)
    ensures FirstRow(rows, id, true).Some? ==> FirstRow(rows, id, false).Some?
    ensures FirstRow(rows, id, true).None? && FirstRow(rows, id, false).Some? ==>
            !FirstRow(rows, id, false).value.analyzed
  {
    if rows != [] {
      AnalyzedIsFound(rows[1..], id);
    }
  }

  lemma FirstIdsOfMore(rows: seq<Item>, x: Item)
    ensures FirstIds(rows + [x]) == if x.mediaId in FirstIds(rows) then FirstIds(rows) else FirstIds(rows) + [x.mediaId]
  {
    assert (rows + [x])[..|rows|] == rows;
  }

  // ---- the merge as it runs ------------------------------------------------------------------------

  ghost predicate Indexed(items: seq<Item>, indexes: map<string, nat>, rows: seq<Item>) {
    && MergeOf(items, rows)
    && (forall id :: id in indexes <==> id in FirstIds(rows))
    && (forall id :: id in indexes ==> indexes[id] < |items| && FirstIds(rows)[indexes[id]] == id)
  }

  lemma Merged(items: seq<Item>, indexes: map<string, nat>, rows: seq<Item>, x: Item)
    requires Indexed(items, indexes, rows)
    ensures x.mediaId in indexes && !items[indexes[x.mediaId]].analyzed && x.analyzed ==>
              Indexed(items[indexes[x.mediaId] := x], indexes, rows + [x])
    ensures x.mediaId in indexes && !(!items[indexes[x.mediaId]].analyzed && x.analyzed) ==>
            Indexed(items, indexes, rows + [x])
    ensures x.mediaId !in indexes ==> Indexed(items + [x], indexes[x.mediaId := |items|], rows + [x])
  {
    FirstIdsOfMore(rows, x);
    FirstIdsAre(rows);
    AnalyzedIsFound(rows, x.mediaId);
    forall id
      ensures Pick(rows + [x], id)
              == if x.mediaId != id then Pick(rows, id)
                 else if Pick(rows, id).None? then Some(x)
                 else if !Pick(rows, id).value.analyzed && x.analyzed then Some(x) else Pick(rows, id)
    {
      PickOfMore(rows, x, id);
    }
    hide FirstIds, FirstRow, Pick;
    if x.mediaId in indexes {
      assert Pick(rows, x.mediaId) == Some(items[indexes[x.mediaId]]);
    }
  }

  method MergePage(page: seq<Item>, items: seq<Item>, indexes: map<string, nat>, ghost rows: seq<Item>)
    returns (merged: seq<Item>, places: map<string, nat>)
    requires Indexed(items, indexes, rows)
    ensures Indexed(merged, places, rows + page)
  {
    hide Indexed;
    merged, places := items, indexes;
    assert rows + page[..0] == rows;
    for i := 0 to |page|
      invariant Indexed(merged, places, rows + page[..i])
    {
      var x := page[i];
      Merged(merged, places, rows + page[..i], x);
      assert rows + page[..i] + [x] == rows + page[..i + 1];
      IndexesFit(merged, places, rows + page[..i]);
      if x.mediaId in places {
        if !merged[places[x.mediaId]].analyzed && x.analyzed {
          merged := merged[places[x.mediaId] := x];
        }
      } else {
        places := places[x.mediaId := |merged|];
        merged := merged + [x];
      }
    }
    assert page[..|page|] == page;
  }

  lemma IndexesFit(items: seq<Item>, indexes: map<string, nat>, rows: seq<Item>)
    requires Indexed(items, indexes, rows)
    ensures forall id :: id in indexes ==> indexes[id] < |items|
  {
  }

  // ---- paging -------------------------------------------------------------------------------------------

  /** One page as it arrives; `next` is empty when there is none. */
  datatype Response = Refused | Page(items: seq<Item>, next: string)

  datatype Outcome = Failed | CursorCycle | Listed(items: seq<Item>)

  function Rows(responses: seq<Response>): seq<Item> {
    if responses == [] then []
    else
      var last := responses[|responses| - 1];
      Rows(responses[..|responses| - 1]) + (if last.Page? then Sanitized(last.items) else [])
  }

  function Cursors(responses: seq<Response>): seq<string> {
    if responses == [] then []
    else
      var last := responses[|responses| - 1];
      Cursors(responses[..|responses| - 1]) + (if last.Page? && last.next != "" then [last.next] else [])
  }

  /**
   * `reviewInbox`. `responses` is what the server would answer, one page after another; when it has no
   * more the request fails. The cursors followed are all different, so a server with finitely many of them
   * is asked at most one time more than it has cursors.
   */
  method ReviewInbox(responses: seq<Response>) returns (outcome: Outcome, requests: nat)
    ensures 1 <= requests <= |responses| + 1
    // the pages before the last one each named a cursor not followed before
    ensures forall i :: 0 <= i < requests - 1 ==> responses[i].Page? && responses[i].next != ""
    ensures NoRepeats(Cursors(responses[..requests - 1])) && |Cursors(responses[..requests - 1])| == requests - 1
    ensures forall i :: 0 <= i < requests - 1 ==> responses[i].next !in INHERITED
    // and the last one decides
    ensures outcome.Failed? <==> requests > |responses| || responses[requests - 1].Refused?
    ensures outcome.Listed? <==>
            requests <= |responses| && responses[requests - 1].Page? && responses[requests - 1].next == ""
    ensures outcome.CursorCycle? <==>
              && requests <= |responses| && responses[requests - 1].Page? && responses[requests - 1].next != ""
              && (responses[requests - 1].next in Cursors(responses[..requests - 1])
                  || responses[requests - 1].next in INHERITED)
    ensures outcome.Listed? ==> MergeOf(outcome.items, Rows(responses[..requests]))
  {
    hide Indexed, Rows, Cursors, MergeOf, NoRepeats, Sanitized;
    var items, indexes := [], map[];
    var seenCursors: set<string> := {};
    requests := 0;
    NoPages(responses);
    while true
      invariant requests <= |responses|
      invariant Indexed(items, indexes, Rows(responses[..requests]))
      invariant NoRepeats(Cursors(responses[..requests])) && |Cursors(responses[..requests])| == requests
      invariant seenCursors == SetOf(Cursors(responses[..requests]))
      invariant forall i :: 0 <= i < requests ==>
                responses[i].Page? && responses[i].next != "" && responses[i].next !in INHERITED
      decreases |responses| - requests
    {
      requests := requests + 1;
      if requests - 1 == |responses| || responses[requests - 1].Refused? {
        return Failed, requests;
      }
      var response := responses[requests - 1];
      OnePage(responses, requests);
      items, indexes := MergePage(Sanitized(response.items), items, indexes, Rows(responses[..requests - 1]));
      if response.next == "" {
        IndexedIsMerge(items, indexes, Rows(responses[..requests]));
        return Listed(items), requests;
      }
      NewCursor(Cursors(responses[..requests - 1]), response.next);
      if Truthy(seenCursors, response.next) {
        return CursorCycle, requests;
      }
      seenCursors := seenCursors + {response.next};
    }
  }

  lemma NoPages(responses: seq<Response>)
    ensures Indexed([], map[], Rows(responses[..0])) && Cursors(responses[..0]) == [] && NoRepeats([])
            && SetOf([]) == {}
  {
  }

  lemma OnePage(responses: seq<Response>, n: nat)
    requires 1 <= n <= |responses| && responses[n - 1].Page?
    ensures Rows(responses[..n]) == Rows(responses[..n - 1]) + Sanitized(responses[n - 1].items)
    ensures Cursors(responses[..n])
            == Cursors(responses[..n - 1]) + (if responses[n - 1].next != "" then [responses[n - 1].next] else [])
  {
    assert responses[..n][..n - 1] == responses[..n - 1];
  }

  lemma NewCursor(cursors: seq<string>, next: string)
    ensures SetOf(cursors + [next]) == SetOf(cursors) + {next}
    ensures NoRepeats(cursors) && next !in SetOf(cursors) ==> NoRepeats(cursors + [next])
    ensures next in SetOf(cursors) <==> next in cursors
  {
  }

  lemma IndexedIsMerge(items: seq<Item>, indexes: map<string, nat>, rows: seq<Item>)
    requires Indexed(items, indexes, rows)
    ensures MergeOf(items, rows)
  {
  }

  /** A merge is determined by the rows it merges, and keeps one row for each medium, nothing twice. */
  lemma MergeIsUnique(a: seq<Item>, b: seq<Item>, rows: seq<Item>)
    requires MergeOf(a, rows) && MergeOf(b, rows)
    ensures a == b
    ensures forall i :: 0 <= i < |a| ==> a[i] in rows && a[i].mediaId == FirstIds(rows)[i]
    ensures forall x :: x in rows ==> exists i :: 0 <= i < |a| && a[i].mediaId == x.mediaId
  {
    forall i | 0 <= i < |a|
      ensures a[i] == b[i] && a[i] in rows && a[i].mediaId == FirstIds(rows)[i]
    {
      FirstRowIsOfMedium(rows, FirstIds(rows)[i], true);
      FirstRowIsOfMedium(rows, FirstIds(rows)[i], false);
    }
    FirstIdsAre(rows);
    forall x | x in rows
      ensures x.mediaId in FirstIds(rows)
    {
      EveryRowIsFound(rows, x);
    }
    hide FirstIds, FirstRow, Pick;
  }

  lemma {:induction false} EveryRowIsFound(rows: seq<Item>, x: Item)
    requires x in rows
    ensures FirstRow(rows, x.mediaId, false).Some?
  {
    if rows[0].mediaId != x.mediaId {
      assert rows == [rows[0]] + rows[1..];
      EveryRowIsFound(rows[1..], x);
    }
  }

  // ---- what a merged list is, by the places of its rows ------------------------------------------------

  predicate Rising(places: seq<nat>) {
    forall i, j :: 0 <= i < j < |places| ==> places[i] < places[j]
  }

  /** No row before it is of the same medium. */
  predicate IsFirst(rows: seq<Item>, k: nat) {
    k < |rows| && forall l :: 0 <= l < k ==> rows[l].mediaId != rows[k].mediaId
  }

  /** It is analyzed, and no row of its medium before it is; or no row of its medium is, and it is the first. */
  predicate IsListed(rows: seq<Item>, k: nat) {
    && k < |rows|
    && if rows[k].analyzed then forall l :: 0 <= l < k && rows[l].mediaId == rows[k].mediaId ==> !rows[l].analyzed
       else IsFirst(rows, k) && forall l :: 0 <= l < |rows| && rows[l].mediaId == rows[k].mediaId ==> !rows[l].analyzed
  }

  function FirstPlaces(rows: seq<Item>): seq<nat> {
    if rows == [] then []
    else
      var n := |rows| - 1;
      FirstPlaces(rows[..n]) + (if rows[n].mediaId in FirstIds(rows[..n]) then [] else [n])
  }

  lemma {:induction false} FirstPlacesAre(rows: seq<Item>)
    ensures var places, ids := FirstPlaces(rows), FirstIds(rows);
            && |places| == |ids| && Rising(places)
            && forall i :: 0 <= i < |places| ==> IsFirst(rows, places[i]) && rows[places[i]].mediaId == ids[i]
  {
    if rows != [] {
      var n := |rows| - 1;
      FirstPlacesAre(rows[..n]);
      FirstIdsAre(rows[..n]);
      hide FirstRow;
      if rows[n].mediaId !in FirstIds(rows[..n]) {
        forall l | 0 <= l < n
          ensures rows[l].mediaId != rows[n].mediaId
        {
          EveryRowIsFound(rows[..n], rows[..n][l]);
        }
      }
    }
  }

  /** The first row a search finds has no match before it, and one that finds nothing had no match. */
  lemma {:induction false} FirstRowAt(rows: seq<Item>, id: string, analyzedOnly: bool) returns (k: nat)
    ensures k <= |rows| && (FirstRow(rows, id, analyzedOnly).Some? <==> k < |rows|)
    ensures k < |rows| ==> FirstRow(rows, id, analyzedOnly) == Some(rows[k])
    ensures forall l :: 0 <= l < k ==> rows[l].mediaId != id || (analyzedOnly && !rows[l].analyzed)
    decreases |rows|
  {
    if rows == [] || (rows[0].mediaId == id && (analyzedOnly ==> rows[0].analyzed)) {
      k := 0;
    } else {
      k := FirstRowAt(rows[1..], id, analyzedOnly);
      k := k + 1;
      assert forall l :: 0 < l < |rows| ==> rows[l] == rows[1..][l - 1];
    }
  }

  lemma PickIsListed(rows: seq<Item>, id: string)
    requires Pick(rows, id).Some?
    ensures exists k: nat :: IsListed(rows, k) && Pick(rows, id) == Some(rows[k]) && rows[k].mediaId == id
  {
    var k := FirstRowAt(rows, id, true);
    var l := FirstRowAt(rows, id, false);
    FirstRowIsOfMedium(rows, id, true);
    FirstRowIsOfMedium(rows, id, false);
    hide FirstRow;
    if k < |rows| {
      assert IsListed(rows, k);
    } else {
      assert IsFirst(rows, l);
      assert IsListed(rows, l);
    }
  }

  /** The media come in the order of their first rows. */
  ghost predicate InOrder(items: seq<Item>, rows: seq<Item>, places: seq<nat>) {
    && |places| == |items| && Rising(places)
    && forall i :: 0 <= i < |items| ==> IsFirst(rows, places[i]) && rows[places[i]].mediaId == items[i].mediaId
  }

  /**
   * The list has one row for each medium, in the order in which the media first come, and it is the medium's first
   * analyzed row, or its first row when none is analyzed.
   */
  lemma MergeMeans(items: seq<Item>, rows: seq<Item>)
    requires MergeOf(items, rows)
    ensures exists places: seq<nat> :: InOrder(items, rows, places)
    ensures forall i :: 0 <= i < |items| ==> exists k: nat :: IsListed(rows, k) && items[i] == rows[k]
    ensures forall x :: x in rows ==> exists i :: 0 <= i < |items| && items[i].mediaId == x.mediaId
  {
    FirstPlacesAre(rows);
    MergeIsUnique(items, items, rows);
    forall i | 0 <= i < |items|
      ensures exists k: nat :: IsListed(rows, k) && items[i] == rows[k]
    {
      PickIsListed(rows, FirstIds(rows)[i]);
    }
    hide FirstIds, FirstPlaces, Pick, IsListed, IsFirst, Rising;
    assert InOrder(items, rows, FirstPlaces(rows));
  }

  /** `kept` is the items at these places, and they are the places of the well-formed ones. */
  ghost predicate KeptAt(items: seq<Item>, kept: seq<Item>, places: seq<nat>) {
    && |places| == |kept| && Rising(places)
    && (forall i :: 0 <= i < |places| ==> places[i] < |items| && kept[i] == items[places[i]])
    && forall k: nat :: k < |items| ==> (k in places <==> WellFormed(items[k]))
  }

  lemma KeptAtMore(items: seq<Item>, kept: seq<Item>, places: seq<nat>, x: Item)
    requires KeptAt(items, kept, places)
    ensures WellFormed(x) ==> KeptAt(items + [x], kept + [x], places + [|items|])
    ensures !WellFormed(x) ==> KeptAt(items + [x], kept, places)
  {
    hide WellFormed;
    var all, more := items + [x], places + [|items|];
    assert forall k: nat :: k < |items| ==> all[k] == items[k];
    assert |items| !in places;
    assert forall k: nat :: k in more <==> k in places || k == |items|;
    assert Rising(more);
    if WellFormed(x) {
      forall i | 0 <= i < |more|
        ensures more[i] < |all| && (kept + [x])[i] == all[more[i]]
      {
        assert i < |places| ==> more[i] == places[i];
      }
    }
  }

  /** Of a page the well-formed items are kept, each of them and in order. */
  lemma {:induction false} SanitizedAre(items: seq<Item>)
    ensures exists places: seq<nat> :: KeptAt(items, Sanitized(items), places)
  {
    if items == [] {
      assert KeptAt(items, Sanitized(items), []);
    } else {
      var n := |items| - 1;
      assert items[..n] + [items[n]] == items;
      var kept := Sanitized(items[..n]);
      assert Sanitized(items) == kept + (if WellFormed(items[n]) then [items[n]] else []);
      assert kept + [] == kept;
      SanitizedAre(items[..n]);
      hide KeptAt, WellFormed, Sanitized;
      var before: seq<nat> :| KeptAt(items[..n], kept, before);
      KeptAtMore(items[..n], kept, before, items[n]);
    }
  }
}
