// One consumer drains the unfinished runs page by page while the set changes under it.

module AnalysisDrain {
  import opened Text

  // ---- the order of runs -------------------------------------------------------------

  datatype Key = Key(created: int, id: string)

  /** Character by character, as the store compares text. */
  predicate TextLess(a: string, b: string) {
    if b == "" then false
    else if a == "" then true
    else if a[0] != b[0] then a[0] < b[0]
    else TextLess(a[1..], b[1..])
  }

  predicate Less(a: Key, b: Key) {
    a.created < b.created || (a.created == b.created && TextLess(a.id, b.id))
  }

  lemma {:induction false} TextLessTransitive(a: string, b: string, c: string)
    requires TextLess(a, b) && TextLess(b, c)
    ensures TextLess(a, c)
  {
    if a != "" && a[0] == b[0] == c[0] {
      TextLessTransitive(a[1..], b[1..], c[1..]);
    }
  }

  lemma {:induction false} TextLessTotal(a: string, b: string)
    ensures TextLess(a, b) || a == b || TextLess(b, a)
    ensures !(TextLess(a, b) && TextLess(b, a)) && (a == b ==> !TextLess(a, b))
  {
    if a != "" && b != "" && a[0] == b[0] {
      TextLessTotal(a[1..], b[1..]);
      assert a == [a[0]] + a[1..] && b == [b[0]] + b[1..];
    }
  }

  lemma LessTransitive(a: Key, b: Key, c: Key)
    requires Less(a, b) && Less(b, c)
    ensures Less(a, c)
  {
    if a.created == b.created == c.created {
      TextLessTransitive(a.id, b.id, c.id);
    }
  }

  lemma LessTotal(a: Key, b: Key)
    ensures Less(a, b) || a == b || Less(b, a)
    ensures !(Less(a, b) && Less(b, a)) && (a == b ==> !Less(a, b))
  {
    TextLessTotal(a.id, b.id);
  }

  predicate Ascending(keys: seq<Key>) {
    forall i, j :: 0 <= i < j < |keys| ==> Less(keys[i], keys[j])
  }

  // ---- the store -------------------------------------------------------------------------

  /** The unfinished runs, in the order the store lists them. */
  type Store = seq<Key>

  predicate Beyond(cursor: Option<Key>, k: Key) {
    cursor.Some? ==> Less(cursor.value, k)
  }

  /** Everything past the cursor. */
  function From(store: Store, cursor: Option<Key>): Store {
    if store == [] then []
    else if Beyond(cursor, store[0]) then [store[0]] + From(store[1..], cursor)
    else From(store[1..], cursor)
  }

  /** `list_unfinished`: the first `limit` runs past the cursor. */
  function Page(store: Store, cursor: Option<Key>, limit: nat): Store {
    var rest := From(store, cursor);
    if |rest| <= limit then rest else rest[..limit]
  }

  function Insert(store: Store, k: Key): Store {
    if store == [] then [k]
    else if Less(k, store[0]) then [k] + store
    else if store[0] == k then store
    else [store[0]] + Insert(store[1..], k)
  }

  function Remove(store: Store, k: Key): Store {
    if store == [] then []
    else if store[0] == k then store[1..]
    else [store[0]] + Remove(store[1..], k)
  }

  lemma {:induction false} FromHas(store: Store, cursor: Option<Key>)
    requires Ascending(store)
    ensures Ascending(From(store, cursor))
    ensures forall k :: k in From(store, cursor) <==> k in store && Beyond(cursor, k)
    ensures |From(store, cursor)| <= |store|
  {
    if store != [] {
      var rest := store[1..];
      assert Ascending(rest);
      FromHas(rest, cursor);
      assert store == [store[0]] + rest;
      assert forall k :: k in rest ==> Less(store[0], k);
      hide From, Beyond;
    }
  }

  lemma {:induction false} InsertHas(store: Store, k: Key)
    requires Ascending(store)
    ensures Ascending(Insert(store, k))
    ensures forall x :: x in Insert(store, k) <==> x in store || x == k
    ensures |Insert(store, k)| <= |store| + 1
  {
    if store != [] {
      LessTotal(k, store[0]);
      var rest := store[1..];
      assert store == [store[0]] + rest;
      if Less(k, store[0]) {
        forall x | x in store
          ensures Less(k, x)
        {
          if x in rest {
            var i :| 0 <= i < |rest| && rest[i] == x;
            assert store[i + 1] == x;
            LessTransitive(k, store[0], x);
          }
        }
      } else if store[0] != k {
        assert Ascending(rest);
        InsertHas(rest, k);
        assert forall x :: x in Insert(rest, k) ==> Less(store[0], x);
      }
    }
  }

  lemma {:induction false} RemoveHas(store: Store, k: Key)
    requires Ascending(store)
    ensures Ascending(Remove(store, k))
    ensures forall x :: x in Remove(store, k) <==> x in store && x != k
    ensures |Remove(store, k)| <= |store|
  {
    if store != [] {
      var rest := store[1..];
      assert store == [store[0]] + rest;
      assert Ascending(rest) && forall x :: x in rest ==> Less(store[0], x);
      LessTotal(store[0], store[0]);
      if store[0] != k {
        RemoveHas(rest, k);
      }
    }
  }

  lemma PageIsPrefix(store: Store, cursor: Option<Key>, limit: nat)
    requires Ascending(store)
    ensures var page, rest := Page(store, cursor, limit), From(store, cursor);
            page <= rest && Ascending(page) && (limit >= 1 && page == [] ==> rest == [])
  {
    FromHas(store, cursor);
  }

  // ---- what happens while the consumer waits ---------------------------------------------

  /** The end of one blocking call: how it went, what others did meanwhile, and whether shutdown was asked for. */
  datatype Beat = Beat(arrivals: seq<Key>, finished: seq<Key>, answer: Answer, stop: bool)

  /** `stays` says whether a processed run is left unfinished: requeued, interrupted, or never claimed. */
  datatype Answer = Fine(stays: bool) | Raised(stays: bool) | NoSuchTable

  function Meanwhile(store: Store, b: Beat): Store {
    Arrive(Depart(store, b.finished), b.arrivals)
  }

  function Depart(store: Store, keys: seq<Key>): Store
    decreases |keys|
  {
    if keys == [] then store else Depart(Remove(store, keys[0]), keys[1..])
  }

  function Arrive(store: Store, keys: seq<Key>): Store
    decreases |keys|
  {
    if keys == [] then store else Arrive(Insert(store, keys[0]), keys[1..])
  }

  lemma {:induction false} DepartHas(store: Store, keys: seq<Key>)
    requires Ascending(store)
    ensures Ascending(Depart(store, keys)) && |Depart(store, keys)| <= |store|
    ensures forall k :: k in Depart(store, keys) <==> k in store && k !in keys
    decreases |keys|
  {
    hide Ascending, Remove;
    if keys != [] {
      RemoveHas(store, keys[0]);
      DepartHas(Remove(store, keys[0]), keys[1..]);
      assert keys == [keys[0]] + keys[1..];
    }
  }

  lemma {:induction false} ArriveHas(store: Store, keys: seq<Key>)
    requires Ascending(store)
    ensures Ascending(Arrive(store, keys)) && |Arrive(store, keys)| <= |store| + |keys|
    ensures forall k :: k in Arrive(store, keys) <==> k in store || k in keys
    decreases |keys|
  {
    hide Ascending, Insert;
    if keys != [] {
      InsertHas(store, keys[0]);
      ArriveHas(Insert(store, keys[0]), keys[1..]);
      assert keys == [keys[0]] + keys[1..];
    }
  }

  lemma MeanwhileHas(store: Store, b: Beat)
    requires Ascending(store)
    ensures Ascending(Meanwhile(store, b))
    ensures forall k :: k in Meanwhile(store, b) <==> (k in store && k !in b.finished) || k in b.arrivals
  {
    hide Ascending, Depart, Arrive;
    DepartHas(store, b.finished);
    ArriveHas(Depart(store, b.finished), b.arrivals);
  }

  /** All the runs that will ever arrive. */
  function Arrivals(beats: seq<Beat>): seq<Key> {
    if beats == [] then [] else beats[0].arrivals + Arrivals(beats[1..])
  }

  /** New runs are new: none of the store's, and identifiers name one run each. */
  predicate Fresh(store: Store, beats: seq<Beat>) {
    && (forall k :: k in Arrivals(beats) ==> k !in store)
    && (forall k, l :: k in store + Arrivals(beats) && l in store + Arrivals(beats) && k.id == l.id ==> k == l)
  }

  datatype DrainOutcome = Idle | Retry | Shutdown

  // ---- the consumer ---------------------------------------------------------------------------

  function Last(keys: seq<Key>): Option<Key> {
    if keys == [] then None else Some(keys[|keys| - 1])
  }

  /** What a pass keeps: it goes upwards, and every run it started with is done, gone, or still ahead. */
  predicate OnCourse(initial: seq<Key>, known: set<Key>, store: Store, processed: seq<Key>, gone: set<Key>) {
    && Ascending(store) && Ascending(processed)
    && (forall k :: k in store ==> k in known)
    && (forall k :: k in processed ==> k in known)
    && (forall k :: k in initial ==> k in processed || k in gone || (k in store && Beyond(Last(processed), k)))
  }

  /** The rest of a page and of what lay behind it when it was listed. */
  predicate Ahead(initial: seq<Key>, known: set<Key>, store: Store, processed: seq<Key>, coming: seq<Key>) {
    && Ascending(coming)
    && (forall k :: k in coming ==> k in known && Beyond(Last(processed), k))
    && (forall k :: k in initial && k in store && Beyond(Last(processed), k) ==> k in coming)
  }

  function Ids(keys: seq<Key>): set<string> {
    set k | k in keys :: k.id
  }

  predicate UniqueIds(known: set<Key>) {
    forall k, l :: k in known && l in known && k.id == l.id ==> k == l
  }

  lemma Waited(initial: seq<Key>, known: set<Key>, store: Store, processed: seq<Key>, gone: set<Key>, b: Beat)
    requires OnCourse(initial, known, store, processed, gone)
    requires forall k :: k in b.arrivals ==> k !in initial && k in known
    ensures OnCourse(initial, known, Meanwhile(store, b), processed, gone + set k | k in b.finished)
    ensures forall k :: k in initial && k in Meanwhile(store, b) ==> k in store
  {
    hide Meanwhile, Ascending, Beyond, Last;
    assert Ascending(store);
    MeanwhileHas(store, b);
  }

  lemma Listed(initial: seq<Key>, known: set<Key>, store: Store, processed: seq<Key>, gone: set<Key>)
    requires OnCourse(initial, known, store, processed, gone)
    ensures Ahead(initial, known, store, processed, From(store, Last(processed)))
  {
    hide From, Ascending, Beyond, Last;
    FromHas(store, Last(processed));
  }

  /** Nothing ahead: every run of the start is done or gone. */
  lemma Through(initial: seq<Key>, known: set<Key>, store: Store, processed: seq<Key>, gone: set<Key>)
    requires OnCourse(initial, known, store, processed, gone) && From(store, Last(processed)) == []
    ensures forall k :: k in initial ==> k in processed || k in gone
  {
    hide From, Ascending, Beyond, Last;
    FromHas(store, Last(processed));
  }

  lemma Upwards(processed: seq<Key>, k: Key)
    requires Ascending(processed) && Beyond(Last(processed), k)
    ensures Ascending(processed + [k]) && k !in processed
  {
    forall i | 0 <= i < |processed|
      ensures Less(processed[i], k)
    {
      if i < |processed| - 1 {
        LessTransitive(processed[i], processed[|processed| - 1], k);
      }
    }
    LessTotal(k, k);
  }

  lemma Took(initial: seq<Key>, known: set<Key>, store: Store, processed: seq<Key>, gone: set<Key>, coming: seq<Key>,
             left: Store)
    requires OnCourse(initial, known, store, processed, gone) && Ahead(initial, known, store, processed, coming)
             && coming != []
    requires left == store || left == Remove(store, coming[0])
    ensures OnCourse(initial, known, left, processed + [coming[0]], gone)
    ensures Ahead(initial, known, left, processed + [coming[0]], coming[1..])
  {
    var k := coming[0];
    Upwards(processed, k);
    RemoveHas(store, k);
    assert Last(processed + [k]) == Some(k);
    assert coming == [k] + coming[1..];
    assert Ascending(coming[1..]);
    forall x | x in coming[1..]
      ensures Less(k, x)
    {
      var i :| 0 <= i < |coming[1..]| && coming[1..][i] == x;
      assert coming[i + 1] == x;
    }
    hide Remove, Ascending;
    forall x | Beyond(Some(k), x)
      ensures Beyond(Last(processed), x) && x != k
    {
      LessTotal(k, x);
      if processed != [] {
        LessTransitive(processed[|processed| - 1], k, x);
      }
    }
  }

  lemma StillAhead(initial: seq<Key>, known: set<Key>, store: Store, processed: seq<Key>, coming: seq<Key>,
                   later: Store)
    requires Ahead(initial, known, store, processed, coming) && forall k :: k in initial && k in later ==> k in store
    ensures Ahead(initial, known, later, processed, coming)
  {
    hide Ascending, Beyond, Last;
  }

  /** Everything a pass keeps, over the execution of the next run of its page. */
  lemma ItemDone(initial: seq<Key>, known: set<Key>, store: Store, processed: seq<Key>, gone: set<Key>,
                 coming: seq<Key>, b: Beat, left: Store)
    requires OnCourse(initial, known, store, processed, gone) && Ahead(initial, known, store, processed, coming)
    requires AllNew(initial, known, b) && coming != []
    requires left == Meanwhile(store, b) || left == Remove(Meanwhile(store, b), coming[0])
    ensures var now := gone + set k | k in b.finished;
            && OnCourse(initial, known, left, processed + [coming[0]], now)
            && Ahead(initial, known, left, processed + [coming[0]], coming[1..])
  {
    hide OnCourse, Ahead, Meanwhile, Remove;
    Waited(initial, known, store, processed, gone, b);
    StillAhead(initial, known, store, processed, coming, Meanwhile(store, b));
    Took(initial, known, Meanwhile(store, b), processed, gone + (set k | k in b.finished), coming, left);
  }

  lemma NothingAscends()
    ensures Ascending([])
  {
  }

  lemma {:induction false} CountedOnce(processed: seq<Key>, known: set<Key>)
    requires Ascending(processed) && forall k :: k in processed ==> k in known
    ensures |processed| <= |known|
  {
    if processed != [] {
      var n := |processed| - 1;
      var last := processed[n];
      assert last !in processed[..n] by {
        forall i | 0 <= i < n
          ensures processed[i] != last
        {
          LessTotal(processed[i], last);
        }
      }
      assert Ascending(processed[..n]);
      CountedOnce(processed[..n], known - {last});
    }
  }

  lemma {:induction false} ElementsOf(keys: seq<Key>)
    ensures |set k | k in keys| <= |keys|
  {
    if keys != [] {
      var n := |keys| - 1;
      ElementsOf(keys[..n]);
      assert keys == keys[..n] + [keys[n]];
      assert (set k | k in keys) == (set k | k in keys[..n]) + {keys[n]};
    }
  }

  lemma LastOfMore(processed: seq<Key>, k: Key)
    ensures Last(processed + [k]) == Some(k)
    ensures Ids(processed + [k]) == Ids(processed) + {k.id}
  {
  }

  lemma NotYetVisited(initial: seq<Key>, known: set<Key>, store: Store, processed: seq<Key>, gone: set<Key>,
                      coming: seq<Key>, visited: set<string>)
    requires OnCourse(initial, known, store, processed, gone) && Ahead(initial, known, store, processed, coming)
             && coming != []
    requires UniqueIds(known) && visited == Ids(processed)
    ensures coming[0].id !in visited
  {
    Upwards(processed, coming[0]);
    hide Ascending, Beyond, Last;
  }

  // ---- the calls of a pass ----------------------------------------------------------------

  /** One blocking call that came back: a listing and what it showed, or the execution of a run. */
  datatype Call = Listing(after: Option<Key>, page: Option<seq<Key>>, beat: Beat) | Execution(run: Key, beat: Beat)

  /** What a listing shows: nothing while the table is missing, and `None` when it fails. */
  function Seen(store: Store, after: Option<Key>, batch: nat, answer: Answer): Option<seq<Key>> {
    match answer
    case Fine(_) => Some(Page(store, after, batch))
    case NoSuchTable => Some([])
    case Raised(_) => None
  }

  /** What one call leaves of the store. */
  function Step(store: Store, c: Call): Store {
    var later := Meanwhile(store, c.beat);
    if c.Execution? && !c.beat.answer.NoSuchTable? && !c.beat.answer.stays then Remove(later, c.run) else later
  }

  function StoreAfter(start: Store, calls: seq<Call>): Store {
    if calls == [] then start
    else Step(StoreAfter(start, calls[..|calls| - 1]), calls[|calls| - 1])
  }

  function BeatsOf(calls: seq<Call>): (beats: seq<Beat>)
    ensures |beats| == |calls|
  {
    if calls == [] then [] else BeatsOf(calls[..|calls| - 1]) + [calls[|calls| - 1].beat]
  }

  /** The runs executed, in the order of execution. */
  function Executed(calls: seq<Call>): (keys: seq<Key>)
    ensures |keys| <= |calls|
  {
    if calls == [] then []
    else
      var before, c := Executed(calls[..|calls| - 1]), calls[|calls| - 1];
      if c.Execution? then before + [c.run] else before
  }

  /** The runs others finished during these calls. */
  function Gone(calls: seq<Call>): set<Key> {
    if calls == [] then {}
    else
      var c := calls[|calls| - 1];
      Gone(calls[..|calls| - 1]) + set k | k in c.beat.finished
  }

  /** Whether one of these calls came back with a request to stop. */
  predicate AskedToStop(calls: seq<Call>) {
    calls != [] && (calls[|calls| - 1].beat.stop || AskedToStop(calls[..|calls| - 1]))
  }

  /** Whether one of these executions raised. */
  predicate AnyRaised(calls: seq<Call>) {
    calls != [] && (
      || (calls[|calls| - 1].Execution? && !calls[|calls| - 1].beat.answer.Fine?)
      || AnyRaised(calls[..|calls| - 1]))
  }

  /** What is left of the last page shown. */
  function Pending(calls: seq<Call>): seq<Key> {
    if calls == [] then []
    else
      match calls[|calls| - 1]
      case Listing(_, page, _) => if page.Some? then page.value else []
      case Execution(_, _) => var before := Pending(calls[..|calls| - 1]); if before == [] then [] else before[1..]
  }

  /** The last listing failed, or showed nothing. */
  predicate Ended(calls: seq<Call>) {
    calls != [] && calls[|calls| - 1].Listing? && (calls[|calls| - 1].page.None? || calls[|calls| - 1].page.value == [])
  }

  /** A listing that was answered showed that nothing lies ahead. */
  predicate SawTheEnd(calls: seq<Call>) {
    Ended(calls) && calls[|calls| - 1].beat.answer.Fine?
  }

  /**
   * The calls of one pass: pages are executed run by run, the next is asked for after the last run executed,
   * and nothing is called once the pass has ended or a stop has been asked for.
   */
  predicate IsPass(start: Store, batch: nat, calls: seq<Call>) {
    calls != [] ==>
      var before, c := calls[..|calls| - 1], calls[|calls| - 1];
      && IsPass(start, batch, before) && !AskedToStop(before) && !Ended(before)
      && match c
         case Listing(after, page, beat) =>
           && Pending(before) == [] && after == Last(Executed(before))
           && page == Seen(StoreAfter(start, calls), after, batch, beat.answer)
         case Execution(run, _) => Pending(before) != [] && run == Pending(before)[0]
  }

  lemma Snoc(start: Store, batch: nat, calls: seq<Call>, c: Call)
    ensures StoreAfter(start, calls + [c]) == Step(StoreAfter(start, calls), c)
    ensures BeatsOf(calls + [c]) == BeatsOf(calls) + [c.beat]
    ensures Executed(calls + [c]) == if c.Execution? then Executed(calls) + [c.run] else Executed(calls)
    ensures AskedToStop(calls + [c]) <==> c.beat.stop || AskedToStop(calls)
    ensures AnyRaised(calls + [c]) <==> (c.Execution? && !c.beat.answer.Fine?) || AnyRaised(calls)
    ensures Gone(calls + [c]) == Gone(calls) + set k | k in c.beat.finished
  {
    assert (calls + [c])[..|calls|] == calls;
  }

  lemma SnocListing(start: Store, batch: nat, calls: seq<Call>, page: Option<seq<Key>>, beat: Beat)
    requires IsPass(start, batch, calls) && !AskedToStop(calls) && !Ended(calls) && Pending(calls) == []
    requires var c := Listing(Last(Executed(calls)), page, beat);
             page == Seen(Step(StoreAfter(start, calls), c), Last(Executed(calls)), batch, beat.answer)
    ensures var more := calls + [Listing(Last(Executed(calls)), page, beat)];
            && IsPass(start, batch, more) && (Ended(more) <==> page.None? || page.value == [])
            && Pending(more) == if page.Some? then page.value else []
  {
    var c := Listing(Last(Executed(calls)), page, beat);
    Snoc(start, batch, calls, c);
    assert (calls + [c])[..|calls|] == calls;
    hide Executed, Seen, StoreAfter, Last, AskedToStop;
  }

  lemma SnocExecution(start: Store, batch: nat, calls: seq<Call>, beat: Beat)
    requires IsPass(start, batch, calls) && !AskedToStop(calls) && !Ended(calls) && Pending(calls) != []
    ensures var more := calls + [Execution(Pending(calls)[0], beat)];
            IsPass(start, batch, more) && !Ended(more) && Pending(more) == Pending(calls)[1..]
  {
    var c := Execution(Pending(calls)[0], beat);
    assert (calls + [c])[..|calls|] == calls;
    hide Executed, Seen, StoreAfter, Last, AskedToStop;
  }

  // ---- what a pass achieves -----------------------------------------------------------------

  /** Runs that arrive are new and known. */
  predicate Newcomers(start: Store, known: set<Key>, calls: seq<Call>) {
    forall i :: 0 <= i < |calls| ==> AllNew(start, known, calls[i].beat)
  }

  predicate AllNew(start: Store, known: set<Key>, b: Beat) {
    forall k :: k in b.arrivals ==> k !in start && k in known
  }

  /** Everything past the last listing's cursor when it was made, less what has been executed since. */
  function Coming(start: Store, calls: seq<Call>): seq<Key> {
    if calls == [] then []
    else
      match calls[|calls| - 1]
      case Listing(after, _, _) => From(StoreAfter(start, calls), after)
      case Execution(_, _) =>
        var before := Coming(start, calls[..|calls| - 1]); if before == [] then [] else before[1..]
  }

  /** What holds after each call of a pass. */
  predicate Underway(start: Store, known: set<Key>, calls: seq<Call>) {
    var store, processed := StoreAfter(start, calls), Executed(calls);
    && OnCourse(start, known, store, processed, Gone(calls))
    && (Pending(calls) != [] ==>
        Ahead(start, known, store, processed, Coming(start, calls)) && Pending(calls) <= Coming(start, calls))
  }

  lemma UnderwayAtFirst(start: Store, known: set<Key>)
    requires Ascending(start) && forall k :: k in start ==> k in known
    ensures Underway(start, known, [])
  {
    assert Ascending([]) by { NothingAscends(); }
    hide Ascending;
    assert Last([]) == None;
  }

  lemma ListingGoesOn(start: Store, batch: nat, known: set<Key>, before: seq<Call>, c: Call)
    requires IsPass(start, batch, before + [c]) && c.Listing?
    requires Underway(start, known, before) && AllNew(start, known, c.beat)
    ensures Underway(start, known, before + [c])
  {
    var calls, store := before + [c], StoreAfter(start, before);
    assert calls[..|before|] == before;
    Snoc(start, batch, before, c);
    Waited(start, known, store, Executed(before), Gone(before), c.beat);
    var later := StoreAfter(start, calls);
    assert Ascending(later) && c.after == Last(Executed(before));
    Listed(start, known, later, Executed(before), Gone(calls));
    PageIsPrefix(later, c.after, batch);
    assert Coming(start, calls) == From(later, c.after);
    assert Pending(calls) != [] ==> Pending(calls) == Page(later, c.after, batch);
    hide Ahead, OnCourse, StoreAfter, Executed, Gone, From, Page, Pending, IsPass, Coming;
  }

  lemma ExecutionGoesOn(start: Store, batch: nat, known: set<Key>, before: seq<Call>, c: Call)
    requires IsPass(start, batch, before + [c]) && c.Execution?
    requires Underway(start, known, before) && AllNew(start, known, c.beat)
    ensures Underway(start, known, before + [c])
  {
    var calls, store := before + [c], StoreAfter(start, before);
    assert calls[..|before|] == before;
    Snoc(start, batch, before, c);
    var coming := Coming(start, before);
    assert Pending(before) <= coming && coming[0] == c.run;
    assert Coming(start, calls) == coming[1..] && Pending(calls) == Pending(before)[1..] <= coming[1..];
    hide Ahead, OnCourse, StoreAfter, Executed, Gone, Meanwhile, Remove, Pending, IsPass, Coming;
    ItemDone(start, known, store, Executed(before), Gone(before), coming, c.beat, StoreAfter(start, calls));
  }

  lemma {:induction false} PassGoesOn(start: Store, batch: nat, known: set<Key>, calls: seq<Call>)
    requires Ascending(start) && IsPass(start, batch, calls) && Newcomers(start, known, calls)
    requires forall k :: k in start ==> k in known
    ensures Underway(start, known, calls)
  {
    if calls == [] {
      UnderwayAtFirst(start, known);
    } else {
      var before, c := calls[..|calls| - 1], calls[|calls| - 1];
      assert calls == before + [c] && IsPass(start, batch, before);
      assert AllNew(start, known, calls[|calls| - 1].beat);
      assert Newcomers(start, known, before);
      hide Ascending, Underway, IsPass, AllNew;
      PassGoesOn(start, batch, known, before);
      if c.Listing? {
        ListingGoesOn(start, batch, known, before, c);
      } else {
        ExecutionGoesOn(start, batch, known, before, c);
      }
    }
  }

  /** Everything there is and will be, as far as these calls know. */
  function Known(start: Store, calls: seq<Call>): set<Key> {
    set k | k in start + Arrivals(BeatsOf(calls))
  }

  lemma {:induction false} ArrivalsConcat(a: seq<Beat>, b: seq<Beat>)
    ensures Arrivals(a + b) == Arrivals(a) + Arrivals(b)
  {
    if a == [] {
      assert a + b == b;
    } else {
      ArrivalsConcat(a[1..], b);
      assert (a + b)[1..] == a[1..] + b;
      Associate(a[0].arrivals, Arrivals(a[1..]), Arrivals(b));
    }
  }

  lemma Associate(a: seq<Key>, b: seq<Key>, c: seq<Key>)
    ensures (a + b) + c == a + (b + c)
  {
  }

  lemma {:induction false} ArrivalsOf(calls: seq<Call>, i: nat)
    requires i < |calls|
    ensures forall k :: k in calls[i].beat.arrivals ==> k in Arrivals(BeatsOf(calls))
  {
    var n := |calls| - 1;
    var last := calls[n].beat;
    ArrivalsConcat(BeatsOf(calls[..n]), [last]);
    assert Arrivals([last]) == last.arrivals by {
      assert [last][1..] == [] && Arrivals([]) == [];
    }
    if i < n {
      ArrivalsOf(calls[..n], i);
    }
  }

  lemma FreshMeansNew(start: Store, calls: seq<Call>)
    requires Fresh(start, BeatsOf(calls))
    ensures Newcomers(start, Known(start, calls), calls) && UniqueIds(Known(start, calls))
  {
    forall i | 0 <= i < |calls|
      ensures AllNew(start, Known(start, calls), calls[i].beat)
    {
      ArrivalsOf(calls, i);
    }
  }

  /** No run is executed twice, and none but those that were there or came. */
  lemma NothingTwice(start: Store, batch: nat, calls: seq<Call>)
    requires Ascending(start) && Fresh(start, BeatsOf(calls)) && IsPass(start, batch, calls)
    ensures Ascending(Executed(calls))
    ensures forall k :: k in Executed(calls) ==> k in start || k in Arrivals(BeatsOf(calls))
    ensures |Executed(calls)| <= |start| + |Arrivals(BeatsOf(calls))|
  {
    var known := Known(start, calls);
    FreshMeansNew(start, calls);
    PassGoesOn(start, batch, known, calls);
    CountedOnce(Executed(calls), known);
    ElementsOf(start + Arrivals(BeatsOf(calls)));
  }

  /** Every run unfinished at the start is executed, or somebody else finished it. */
  lemma EverythingIsDone(start: Store, batch: nat, calls: seq<Call>)
    requires batch >= 1 && Ascending(start) && Fresh(start, BeatsOf(calls)) && IsPass(start, batch, calls)
    requires SawTheEnd(calls)
    ensures forall k :: k in start ==> k in Executed(calls) || k in Gone(calls)
  {
    var known := Known(start, calls);
    FreshMeansNew(start, calls);
    PassGoesOn(start, batch, known, calls);
    var store, after := StoreAfter(start, calls), calls[|calls| - 1].after;
    PageIsPrefix(store, after, batch);
    assert Page(store, after, batch) == [] && after == Last(Executed(calls));
    Through(start, known, store, Executed(calls), Gone(calls));
  }

  /** The first runs past the cursor, in order, and all of them unless the page is full. */
  ghost predicate Shows(store: Store, after: Option<Key>, batch: nat, page: seq<Key>) {
    && Ascending(page) && |page| <= batch
    && (forall k :: k in page ==> k in store && Beyond(after, k))
    && forall k :: k in store && Beyond(after, k) && k !in page ==>
         |page| == batch && forall l :: l in page ==> Less(l, k)
  }

  lemma PageShows(store: Store, after: Option<Key>, batch: nat)
    requires Ascending(store)
    ensures Shows(store, after, batch, Page(store, after, batch))
  {
    var rest, page := From(store, after), Page(store, after, batch);
    FromHas(store, after);
    hide From, Beyond, Less;
    assert forall j :: 0 <= j < |page| ==> page[j] == rest[j] && rest[j] in page;
    forall k | k in rest && k !in page
      ensures |page| == batch && forall l :: l in page ==> Less(l, k)
    {
      var i :| 0 <= i < |rest| && rest[i] == k;
      assert i >= |page|;
    }
  }

  lemma {:induction false} StoreAscends(start: Store, calls: seq<Call>)
    requires Ascending(start)
    ensures Ascending(StoreAfter(start, calls))
    decreases |calls|
  {
    if calls != [] {
      var c, before := calls[|calls| - 1], StoreAfter(start, calls[..|calls| - 1]);
      StoreAscends(start, calls[..|calls| - 1]);
      hide Ascending, Meanwhile, Remove;
      MeanwhileHas(before, c.beat);
      if c.Execution? {
        RemoveHas(Meanwhile(before, c.beat), c.run);
      }
    }
  }

  lemma {:induction false} StopsAndFailures(calls: seq<Call>)
    ensures AskedToStop(calls) <==> exists i: nat :: i < |calls| && calls[i].beat.stop
    ensures AnyRaised(calls) <==>
            exists i: nat :: i < |calls| && calls[i].Execution?
                             && (calls[i].beat.answer.Raised? || calls[i].beat.answer.NoSuchTable?)
    decreases |calls|
  {
    if calls != [] {
      var n := |calls| - 1;
      StopsAndFailures(calls[..n]);
      assert forall i: nat :: i < n ==> calls[..n][i] == calls[i];
      assert calls[n] == calls[|calls| - 1];
    }
  }

  lemma {:induction false} PassBefore(start: Store, batch: nat, calls: seq<Call>, n: nat)
    requires IsPass(start, batch, calls) && n <= |calls|
    ensures IsPass(start, batch, calls[..n])
    decreases |calls|
  {
    if n < |calls| {
      var before := calls[..|calls| - 1];
      PassBefore(start, batch, before, n);
      assert before[..n] == calls[..n];
    } else {
      assert calls[..n] == calls;
    }
  }

  /**
   * A listing starts after the last run executed, and shows the first runs past it; nothing while the table is missing;
   * and it fails when the store does.
   */
  lemma ListingShows(start: Store, batch: nat, calls: seq<Call>, i: nat)
    requires Ascending(start) && IsPass(start, batch, calls) && i < |calls| && calls[i].Listing?
    ensures var c, executed := calls[i], Executed(calls[..i]);
            && c.after == (if executed == [] then None else Some(executed[|executed| - 1]))
            && (c.page.None? <==> c.beat.answer.Raised?) && (c.beat.answer.NoSuchTable? ==> c.page == Some([]))
            && (c.beat.answer.Fine? ==> Shows(StoreAfter(start, calls[..i + 1]), c.after, batch, c.page.value))
  {
    var so := calls[..i + 1];
    PassBefore(start, batch, calls, i + 1);
    StoreAscends(start, so);
    assert so[..i] == calls[..i] && so[i] == calls[i];
    hide StoreAfter, Ascending, Page, Executed, Shows, AskedToStop, Ended, Pending;
    PageShows(StoreAfter(start, so), calls[i].after, batch);
  }

  /**
   * Pages are asked for only when the one before is done: no more than one listing for each execution, and a last one.
   */
  lemma {:induction false} FewCalls(start: Store, batch: nat, calls: seq<Call>)
    requires IsPass(start, batch, calls)
    ensures |calls| <= 2 * |Executed(calls)| + 1
    ensures Pending(calls) == [] && !Ended(calls) ==> |calls| <= 2 * |Executed(calls)|
  {
    if calls != [] {
      FewCalls(start, batch, calls[..|calls| - 1]);
    }
  }

  /** The run next in turn has not been executed in this pass. */
  lemma NextIsNew(start: Store, batch: nat, calls: seq<Call>)
    requires Ascending(start) && Fresh(start, BeatsOf(calls)) && IsPass(start, batch, calls) && Pending(calls) != []
    ensures Pending(calls)[0].id !in Ids(Executed(calls))
  {
    var known := Known(start, calls);
    FreshMeansNew(start, calls);
    PassGoesOn(start, batch, known, calls);
    hide OnCourse, Ahead, UniqueIds;
    NotYetVisited(start, known, StoreAfter(start, calls), Executed(calls), Gone(calls), Coming(start, calls),
                  Ids(Executed(calls)));
  }

  /** The calls made so far used up the first of the beats. */
  lemma FreshSoFar(start: Store, beats: seq<Beat>, n: nat)
    requires Fresh(start, beats) && n <= |beats|
    ensures Fresh(start, beats[..n])
  {
    assert beats == beats[..n] + beats[n..];
    ArrivalsConcat(beats[..n], beats[n..]);
  }

  /** `did` is a pass over the store: each call is on the next beat, and the store is what they made of it. */
  ghost predicate Drained(start: Store, batch: nat, was: seq<Beat>, did: seq<Call>, store: Store, beats: seq<Beat>) {
    && |did| <= |was| && beats == was[|did|..] && BeatsOf(did) == was[..|did|]
    && store == StoreAfter(start, did) && IsPass(start, batch, did)
  }

  lemma NothingYet(start: Store, batch: nat, was: seq<Beat>)
    ensures Drained(start, batch, was, [], start, was) && !Ended([]) && Executed([]) == [] && Last([]) == None
            && Ids([]) == {}
    ensures !AnyRaised([]) && !AskedToStop([]) && Pending([]) == []
  {
    assert was[0..] == was;
  }

  /** One more call, on the next beat. */
  lemma OneMore(start: Store, batch: nat, was: seq<Beat>, did: seq<Call>, c: Call, store: Store, beats: seq<Beat>)
    requires Drained(start, batch, was, did, store, beats) && beats != [] && c.beat == beats[0]
             && IsPass(start, batch, did + [c])
    ensures Drained(start, batch, was, did + [c], Step(store, c), beats[1..])
    ensures Executed(did + [c]) == if c.Execution? then Executed(did) + [c.run] else Executed(did)
    ensures AskedToStop(did + [c]) <==> c.beat.stop || AskedToStop(did)
    ensures AnyRaised(did + [c]) <==> (c.Execution? && !c.beat.answer.Fine?) || AnyRaised(did)
  {
    Snoc(start, batch, did, c);
    hide IsPass, Executed, AskedToStop, AnyRaised, Step, StoreAfter, BeatsOf;
    assert was[..|did| + 1] == was[..|did|] + [was[|did|]];
  }

  lemma AfterListing(start: Store, batch: nat, was: seq<Beat>, did: seq<Call>, page: Option<seq<Key>>, store: Store,
                     beats: seq<Beat>)
    requires Drained(start, batch, was, did, store, beats) && beats != []
    requires !AskedToStop(did) && !Ended(did) && Pending(did) == []
    requires page == Seen(Step(store, Listing(Last(Executed(did)), page, beats[0])), Last(Executed(did)), batch,
                          beats[0].answer)
    ensures var c := Listing(Last(Executed(did)), page, beats[0]); var more := did + [c];
            && Drained(start, batch, was, more, Step(store, c), beats[1..])
            && Executed(more) == Executed(did) && (AnyRaised(more) <==> AnyRaised(did))
            && (AskedToStop(more) <==> c.beat.stop)
            && (Ended(more) <==> page.None? || page.value == [])
            && Pending(more) == if page.Some? then page.value else []
  {
    SnocListing(start, batch, did, page, beats[0]);
    hide IsPass, Ended, Pending, AskedToStop, AnyRaised, Executed, Last, Step, Seen;
    OneMore(start, batch, was, did, Listing(Last(Executed(did)), page, beats[0]), store, beats);
  }

  lemma AfterExecution(start: Store, batch: nat, was: seq<Beat>, did: seq<Call>, store: Store, beats: seq<Beat>)
    requires Drained(start, batch, was, did, store, beats) && beats != []
    requires !AskedToStop(did) && !Ended(did) && Pending(did) != []
    ensures var c := Execution(Pending(did)[0], beats[0]); var more := did + [c];
            && Drained(start, batch, was, more, Step(store, c), beats[1..])
            && Last(Executed(more)) == Some(c.run) && Ids(Executed(more)) == Ids(Executed(did)) + {c.run.id}
            && (AnyRaised(more) <==> !c.beat.answer.Fine? || AnyRaised(did))
            && (AskedToStop(more) <==> c.beat.stop)
            && !Ended(more) && Pending(more) == Pending(did)[1..]
  {
    SnocExecution(start, batch, did, beats[0]);
    LastOfMore(Executed(did), Pending(did)[0]);
    hide IsPass, Ended, Pending, AskedToStop, AnyRaised, Executed, Last, Ids, Step;
    OneMore(start, batch, was, did, Execution(Pending(did)[0], beats[0]), store, beats);
  }

  /** All that a pass has achieved when it stops here. */
  ghost predicate Achieved(start: Store, did: seq<Call>) {
    // runs upwards and nothing twice, none but those that were there or came
    && Ascending(Executed(did))
    && (forall k :: k in Executed(did) ==> k in start || k in Arrivals(BeatsOf(did)))
    // in few calls
    && |did| <= 2 * |Executed(did)| + 1 && |Executed(did)| <= |start| + |Arrivals(BeatsOf(did))|
    // everything that was there, unless somebody else finished it
    && (SawTheEnd(did) ==> forall k :: k in start ==> k in Executed(did) || k in Gone(did))
  }

  lemma PassAchieves(start: Store, batch: nat, was: seq<Beat>, did: seq<Call>, store: Store, beats: seq<Beat>)
    requires batch >= 1 && Ascending(start) && Fresh(start, was) && Drained(start, batch, was, did, store, beats)
    ensures Achieved(start, did)
  {
    hide IsPass, Ascending, Fresh, Executed, Gone, SawTheEnd, StoreAfter, Arrivals, BeatsOf;
    FreshSoFar(start, was, |did|);
    NothingTwice(start, batch, did);
    FewCalls(start, batch, did);
    if SawTheEnd(did) {
      EverythingIsDone(start, batch, did);
    }
  }

  lemma NextInTurn(start: Store, batch: nat, was: seq<Beat>, did: seq<Call>, store: Store, beats: seq<Beat>)
    requires Ascending(start) && Fresh(start, was) && Drained(start, batch, was, did, store, beats)
             && Pending(did) != []
    ensures Pending(did)[0].id !in Ids(Executed(did))
  {
    hide IsPass, Ascending, Fresh, Executed, Pending, StoreAfter, BeatsOf, Ids;
    FreshSoFar(start, was, |did|);
    NextIsNew(start, batch, did);
  }

  class AnalysisConsumer {
    const batch: nat
    var store: Store                 // the durable set of unfinished runs
    var beats: seq<Beat>             // the blocking calls still to come
    var stopping: bool
    var active: set<string>
    ghost var calls: seq<Call>       // the blocking calls that came back

    constructor (batch: nat, store: Store, beats: seq<Beat>)
      requires batch >= 1
      ensures this.batch == batch && this.store == store && this.beats == beats && !stopping && active == {}
              && calls == []
    {
      this.batch, this.store, this.beats := batch, store, beats;
      stopping, active, calls := false, {}, [];
    }

    /** One call on the worker thread; when no more are to come the process is going away. */
    method Block() returns (beat: Option<Beat>)
      modifies this
      ensures beat.None? <==> old(beats) == []
      ensures active == old(active) && calls == old(calls)
      ensures beat.None? ==> stopping && store == old(store) && beats == old(beats)
      ensures beat.Some? ==>
                && beat.value == old(beats)[0] && beats == old(beats)[1..]
                && store == Meanwhile(old(store), beat.value) && stopping == (old(stopping) || beat.value.stop)
    {
      if beats == [] {
        stopping := true;
        return None;
      }
      beat := Some(beats[0]);
      store := Meanwhile(store, beats[0]);
      stopping := stopping || beats[0].stop;
      beats := beats[1..];
    }

    /**
     * `_discover`: `None` when the listing failed; empty when the
     * table is not there yet. `cut` when the process goes away.
     */
    method Discover(after: Option<Key>) returns (runs: Option<seq<Key>>, cut: bool)
      modifies this
      ensures active == old(active) && (cut <==> old(beats) == [])
      ensures old(beats) == [] ==> runs.None? && stopping && store == old(store) && beats == [] && calls == old(calls)
      ensures old(beats) != [] ==>
                var c := Listing(after, runs, old(beats)[0]);
                && calls == old(calls) + [c] && store == Step(old(store), c) && beats == old(beats)[1..]
                && stopping == (old(stopping) || c.beat.stop)
                && runs == Seen(store, after, batch, c.beat.answer)
    {
      var b := Block();
      cut := b.None?;
      if cut {
        return None, cut;
      }
      match b.value.answer {
        case Fine(_) => runs := Some(Page(store, after, batch));
        case NoSuchTable => runs := Some([]);
        case Raised(_) => runs := None;
      }
      calls := calls + [Listing(after, runs, b.value)];
    }

    /** `_process_run`. Whatever the execution raises only means that the pass is to be repeated. */
    method ProcessRun(run: Key) returns (outcome: DrainOutcome)
      requires run.id !in active
      modifies this
      ensures active == old(active)
      ensures old(stopping) || old(beats) == [] ==>
                outcome.Shutdown? && stopping && store == old(store) && beats == old(beats) && calls == old(calls)
      ensures !old(stopping) && old(beats) != [] ==>
                var c := Execution(run, old(beats)[0]);
                && calls == old(calls) + [c] && store == Step(old(store), c) && beats == old(beats)[1..]
                && stopping == c.beat.stop
                && outcome == if c.beat.answer.Fine? then Idle else Retry
    {
      active := active + {run.id};
      if stopping {
        outcome := Shutdown;
      } else {
        var b := Block();
        if b.None? {
          outcome := Shutdown;
        } else {
          calls := calls + [Execution(run, b.value)];
          if !b.value.answer.NoSuchTable? && !b.value.answer.stays {
            store := Remove(store, run);
          }
          outcome := if b.value.answer.Fine? then Idle else Retry;
        }
      }
      active := active - {run.id};
    }

    /** `_drain_once`. */
    method DrainOnce() returns (outcome: DrainOutcome)
      requires batch >= 1 && active == {} && Ascending(store) && Fresh(store, beats)
      modifies this
      ensures active == {}
      ensures old(calls) <= calls
      ensures var did := calls[|old(calls)|..];
              && Drained(old(store), batch, old(beats), did, store, beats)
              && Achieved(old(store), did)
              // the pass ends with a listing that shows nothing, or else was stopped
              && (outcome.Shutdown? <==> !Ended(did))
              && (outcome.Idle? <==> Ended(did) && calls[|calls| - 1].page.Some? && !AnyRaised(did))
              && (!Ended(did) ==> old(stopping) || AskedToStop(did) || beats == [])
              && (old(stopping) ==> did == [])
              && (stopping <==> old(stopping) || AskedToStop(did) || !Ended(did))
    {
      hide *;
      ghost var start, was, earlier := store, beats, calls;
      ghost var did: seq<Call> := [];
      var cursor: Option<Key>, visited: set<string>, retryNeeded := None, {}, false;
      NothingYet(start, batch, was);
      while !stopping
        invariant active == {} && calls == earlier + did && Drained(start, batch, was, did, store, beats) && !Ended(did)
        invariant cursor == Last(Executed(did)) && visited == Ids(Executed(did)) && retryNeeded == AnyRaised(did)
        invariant stopping == (old(stopping) || AskedToStop(did)) && (old(stopping) ==> did == [])
        invariant !stopping ==> Pending(did) == []
        decreases |beats|
      {
        ghost var before, script := store, beats;
        var runs, cut := Discover(cursor);
        if cut {
          outcome := Shutdown;
          PassAchieves(start, batch, was, did, store, beats);
          assert calls[|earlier|..] == did;
          return;
        }
        AfterListing(start, batch, was, did, runs, before, script);
        did := did + [Listing(cursor, runs, script[0])];
        if runs.None? {
          outcome := Retry;
          PassAchieves(start, batch, was, did, store, beats);
          assert calls[|earlier|..] == did;
          return;
        }
        if runs.value == [] {
          outcome := if retryNeeded then Retry else Idle;
          PassAchieves(start, batch, was, did, store, beats);
          assert calls[|earlier|..] == did;
          return;
        }
        ghost var left := |beats|;
        for i := 0 to |runs.value|
          invariant active == {} && calls == earlier + did && Drained(start, batch, was, did, store, beats)
                    && !Ended(did) && |beats| <= left
          invariant cursor == Last(Executed(did)) && visited == Ids(Executed(did)) && retryNeeded == AnyRaised(did)
          invariant stopping == AskedToStop(did) && !old(stopping)
          invariant Pending(did) == runs.value[i..]
        {
          var run := runs.value[i];
          assert runs.value[i..] != [] && runs.value[i..][0] == run && runs.value[i..][1..] == runs.value[i + 1..];
          if stopping {
            outcome := Shutdown;
            PassAchieves(start, batch, was, did, store, beats);
            assert calls[|earlier|..] == did;
            return;
          }
          NextInTurn(start, batch, was, did, store, beats);
          cursor := Some(run);
          if run.id !in visited {
            visited := visited + {run.id};
            ghost var before, script := store, beats;
            var result := ProcessRun(run);
            if result.Shutdown? {
              outcome := Shutdown;
              PassAchieves(start, batch, was, did, store, beats);
              assert calls[|earlier|..] == did;
              return;
            }
            AfterExecution(start, batch, was, did, before, script);
            did := did + [Execution(run, script[0])];
            if result.Retry? {
              retryNeeded := true;
            }
          }
        }
        assert runs.value[|runs.value|..] == [];
      }
      outcome := Shutdown;
      PassAchieves(start, batch, was, did, store, beats);
      assert calls[|earlier|..] == did;
    }
  }

  // ---- the delay between passes ------------------------------------------------------------

  function Doubled(initial: real, times: nat): real {
    if times == 0 then initial else 2.0 * Doubled(initial, times - 1)
  }

  function Least(a: real, b: real): real {
    if a <= b then a else b
  }

  /** The delay after `failures` passes in a row that had to be repeated. */
  function Backoff(initial: real, most: real, failures: nat): real {
    Least(Doubled(initial, failures), most)
  }

  lemma {:induction false} DoublingGrows(initial: real, n: nat)
    requires 0.0 <= initial
    ensures initial <= Doubled(initial, n)
  {
    if n > 0 {
      DoublingGrows(initial, n - 1);
    }
  }

  /** Doubling and capping step by step is capping the doubled whole. */
  lemma BackoffStep(initial: real, most: real, n: nat)
    requires 0.0 <= initial <= most
    ensures Backoff(initial, most, n + 1) == Least(Backoff(initial, most, n) * 2.0, most)
    ensures initial <= Backoff(initial, most, n) <= Backoff(initial, most, n + 1) <= most
  {
    DoublingGrows(initial, n);
  }

  class RetryDelay {
    const initial: real
    const most: real
    var current: real
    ghost var failures: nat

    ghost predicate Valid()
      reads this
    {
      0.0 <= initial <= most && current == Backoff(initial, most, failures)
    }

    constructor (initial: real, most: real)
      requires 0.0 <= initial <= most
      ensures Valid() && failures == 0 && this.initial == initial && this.most == most
    {
      this.initial, this.most, current, failures := initial, most, initial, 0;
    }

    method Increase()
      requires Valid()
      modifies this
      ensures Valid() && failures == old(failures) + 1
    {
      BackoffStep(initial, most, failures);
      failures := failures + 1;
      if current <= 0.0 {
        return;
      }
      current := if current * 2.0 <= most then current * 2.0 else most;
    }

    method Reset()
      requires Valid()
      modifies this
      ensures Valid() && failures == 0
    {
      current, failures := initial, 0;
    }
  }
}
