/** Transaction and audit paging, and why following the cursors lists everything exactly once. */
module Paging {
  import opened Results
  import opened Records
  import opened AuditLog
  import History

  const PAGE_LIMIT: nat := 50

  // ----- transactions -----

  /** Newest first, and by identifier within one second. */
  datatype Key = Key(createdAt: int, id: Id) {
    predicate Below(other: Key) {
      createdAt < other.createdAt || (createdAt == other.createdAt && id < other.id)
    }
  }

  datatype Page = Page(entries: seq<Key>, total: nat, next: Option<Id>, hasMore: bool)

  /** The intents an actor may list: all of them for the owner, its own for an agent. */
  function Listed(intents: map<Id, Intent>, agent: Option<Id>): set<Key> {
    set i | i in intents && (agent.None? || intents[i].agentId == agent.value) :: Key(intents[i].createdAt, i)
  }

  predicate Descending(keys: seq<Key>) {
    forall i, j :: 0 <= i < j < |keys| ==> keys[j].Below(keys[i])
  }

  /** The one descending listing of a set. */
  ghost predicate Lists(keys: seq<Key>, all: set<Key>) {
    Descending(keys) && forall k :: k in keys <==> k in all
  }

  method Greatest(keys: set<Key>) returns (top: Key)
    requires keys != {}
    ensures top in keys && forall k :: k in keys && k != top ==> k.Below(top)
  {
    top :| top in keys;
    var rest := keys - {top};
    while rest != {}
      invariant top in keys && rest <= keys && forall k :: k in keys && k !in rest && k != top ==> k.Below(top)
      decreases |rest|
    {
      var k :| k in rest;
      if top.Below(k) {
        top := k;
      }
      rest := rest - {k};
    }
  }

  /** Stands for the sort by descending key. */
  method Sort(all: set<Key>) returns (keys: seq<Key>)
    ensures Lists(keys, all)
  {
    keys := [];
    var rest := all;
    while rest != {}
      invariant rest <= all && Lists(keys, all - rest)
      invariant forall k, l :: k in rest && l in keys ==> k.Below(l)
      decreases |rest|
    {
      var top := Greatest(rest);
      keys := keys + [top];
      rest := rest - {top};
    }
    assert all - {} == all;
  }

  /** Where the page after `cursor` starts; a cursor that is not listed is refused. */
  method StartOf(keys: seq<Key>, cursor: Option<Id>) returns (r: Result<nat>)
    ensures cursor.None? ==> r == Ok(0)
    ensures cursor.Some? && r.Ok? ==> 0 < r.value <= |keys| && keys[r.value - 1].id == cursor.value
    ensures r.Err? ==> r == Err(Invalid) && cursor.Some? && forall k :: k in keys ==> k.id != cursor.value
  {
    if cursor.None? {
      return Ok(0);
    }
    for i := 0 to |keys|
      invariant forall j :: 0 <= j < i ==> keys[j].id != cursor.value
    {
      if keys[i].id == cursor.value {
        return Ok(i + 1);
      }
    }
    return Err(Invalid);
  }

  /** What a page is: the first `limit` keys below the cursor, and whether more of them remain. */
  ghost predicate IsPage(page: Page, all: set<Key>, cursor: Option<Key>, limit: nat) {
    && |page.entries| <= limit && page.total == |all|
    && Descending(page.entries)
    && (forall k :: k in page.entries ==> k in all && After(k, cursor))
    && (forall k :: k in all && After(k, cursor) && k !in page.entries ==> page.hasMore && forall l :: l in page.entries ==> k.Below(l))
    && (page.hasMore ==> |page.entries| == limit)
    && page.next == if page.hasMore && |page.entries| > 0 then Some(page.entries[|page.entries| - 1].id) else None
  }

  predicate After(k: Key, cursor: Option<Key>) {
    cursor.Some? ==> k.Below(cursor.value)
  }

  /** The answer to one listing request: a page below the intent the cursor names, or a refusal of limit or cursor. */
  ghost predicate Answers(r: Result<Page>, intents: map<Id, Intent>, agent: Option<Id>, cursor: Option<Id>, limit: nat) {
    var listed := Listed(intents, agent);
    match r
    case Err(e) =>
      && e == Invalid
      && (limit == 0 || limit > PAGE_LIMIT || (cursor.Some? && forall k :: k in listed ==> k.id != cursor.value))
    case Ok(page) =>
      && 0 < limit <= PAGE_LIMIT
      && (if cursor.None? then IsPage(page, listed, None, limit)
          else exists k :: k in listed && k.id == cursor.value && IsPage(page, listed, Some(k), limit))
  }

  /** `list_transactions_page` and `owner_list_transactions_page`. */
  method ListTransactions(intents: map<Id, Intent>, agent: Option<Id>, cursor: Option<Id>, limit: nat) returns (r: Result<Page>)
    ensures Answers(r, intents, agent, cursor, limit)
  {
    if limit == 0 || limit > PAGE_LIMIT {
      return Err(Invalid);
    }
    hide IsPage, Descending;
    var all := Listed(intents, agent);
    var keys := Sort(all);
    var start :- StartOf(keys, cursor);
    var end := if start + limit < |keys| then start + limit else |keys|;
    var entries := keys[start..end];
    var hasMore := end < |keys|;
    var next := if hasMore && |entries| > 0 then Some(entries[|entries| - 1].id) else None;
    var page := Page(entries, |keys|, next, hasMore);
    ghost var from := if start == 0 then None else Some(keys[start - 1]);
    SliceIsPage(page, keys, all, start, limit);
    return Ok(page);
  }

  lemma SliceIsPage(page: Page, keys: seq<Key>, all: set<Key>, start: nat, limit: nat)
    requires Lists(keys, all) && start <= |keys| && 0 < limit
    requires var end := if start + limit < |keys| then start + limit else |keys|;
             && page.entries == keys[start..end] && page.hasMore == (end < |keys|) && page.total == |keys|
             && page.next == if page.hasMore && |page.entries| > 0 then Some(page.entries[|page.entries| - 1].id) else None
    ensures IsPage(page, all, if start == 0 then None else Some(keys[start - 1]), limit)
  {
    var end := if start + limit < |keys| then start + limit else |keys|;
    var cursor := if start == 0 then None else Some(keys[start - 1]);
    ListedCount(keys, all);
    forall k | k in all && After(k, cursor) && k !in page.entries
      ensures page.hasMore && forall l :: l in page.entries ==> k.Below(l)
    {
      var i :| 0 <= i < |keys| && keys[i] == k;
      BelowCursor(keys, start, i);
      InSlice(keys, start, end, i);
    }
  }

  lemma BelowCursor(keys: seq<Key>, start: nat, i: nat)
    requires Descending(keys) && start <= |keys| && i < |keys|
    ensures start > 0 && keys[i].Below(keys[start - 1]) ==> start <= i
  {
  }

  lemma InSlice(keys: seq<Key>, start: nat, end: nat, i: nat)
    requires start <= end <= |keys| && i < |keys|
    ensures start <= i < end ==> keys[i] in keys[start..end]
  {
    if start <= i < end {
      assert keys[start..end][i - start] == keys[i];
    }
  }

  lemma {:induction false} ListedCount(keys: seq<Key>, all: set<Key>)
    requires Lists(keys, all)
    ensures |keys| == |all|
  {
    if |keys| == 0 {
      assert all == {};
    } else {
      var last := keys[|keys| - 1];
      var shorter := keys[..|keys| - 1];
      assert keys == shorter + [last];
      assert last !in shorter;
      forall k
        ensures k in shorter <==> k in all - {last}
      {
        assert k in keys <==> k in shorter || k == last;
      }
      ListedCount(shorter, all - {last});
    }
  }

  // ----- following the cursors -----

  /** Pages asked for one after the other, each with the last key of the one before, while intents may be added in between. */
  ghost predicate Followed(sets: seq<set<Key>>, pages: seq<Page>, limits: seq<nat>) {
    && |sets| == |pages| == |limits| && |pages| > 0
    && (forall j :: 0 <= j < |sets| - 1 ==> sets[j] <= sets[j + 1])
    && (forall j :: 0 <= j < |pages| ==> 0 < limits[j] && IsPage(pages[j], sets[j], CursorOf(pages, j), limits[j]))
    && (forall j :: 0 <= j < |pages| - 1 ==> pages[j].hasMore)
  }

  ghost function CursorOf(pages: seq<Page>, j: nat): Option<Key>
    requires j <= |pages|
  {
    if j == 0 then None else LastOf(pages[j - 1])
  }

  ghost function Concat(pages: seq<Page>): seq<Key> {
    if |pages| == 0 then [] else Concat(pages[..|pages| - 1]) + pages[|pages| - 1].entries
  }

  lemma {:induction false} GrowingSets(sets: seq<set<Key>>, j: nat)
    requires j < |sets| && forall i :: 0 <= i < |sets| - 1 ==> sets[i] <= sets[i + 1]
    ensures sets[0] <= sets[j]
  {
    if j > 0 {
      GrowingSets(sets, j - 1);
    }
  }

  /** What was read so far descends to the cursor, and nothing of `first` above the cursor is missing. */
  ghost predicate Covered(done: seq<Key>, cursor: Option<Key>, first: set<Key>) {
    && Descending(done)
    && (cursor.None? ==> done == [])
    && (cursor.Some? ==> forall k :: k in done ==> k == cursor.value || cursor.value.Below(k))
    && (forall k :: k in first && k !in done ==> After(k, cursor))
  }

  ghost function LastOf(page: Page): Option<Key> {
    if |page.entries| == 0 then None else Some(page.entries[|page.entries| - 1])
  }

  /** One page more. */
  lemma CoverNext(done: seq<Key>, cursor: Option<Key>, first: set<Key>, all: set<Key>, page: Page, limit: nat)
    requires Covered(done, cursor, first) && first <= all && IsPage(page, all, cursor, limit) && 0 < limit
    ensures Descending(done + page.entries)
    ensures page.hasMore ==> Covered(done + page.entries, LastOf(page), first)
    ensures !page.hasMore ==> forall k :: k in first ==> k in done + page.entries
  {
    var longer := done + page.entries;
    forall i, j | 0 <= i < j < |longer|
      ensures longer[j].Below(longer[i])
    {
      if i < |done| <= j {
        assert longer[i] in done && longer[j] in page.entries;
      }
    }
    if page.hasMore {
      var last := page.entries[|page.entries| - 1];
      forall k | k in longer
        ensures k == last || last.Below(k)
      {
        var i :| 0 <= i < |longer| && longer[i] == k;
        assert longer[|longer| - 1] == last;
      }
    }
  }

  /** What following says about one page. */
  lemma FollowedPage(sets: seq<set<Key>>, pages: seq<Page>, limits: seq<nat>, j: nat)
    requires Followed(sets, pages, limits) && j < |pages|
    ensures |sets| == |pages| == |limits| && sets[0] <= sets[j] && 0 < limits[j]
    ensures IsPage(pages[j], sets[j], CursorOf(pages, j), limits[j]) && (j < |pages| - 1 ==> pages[j].hasMore)
  {
    hide IsPage, LastOf;
    GrowingSets(sets, j);
  }

  lemma NothingCovered(first: set<Key>)
    ensures Covered([], None, first)
  {
  }

  lemma {:induction false} PrefixCovered(sets: seq<set<Key>>, pages: seq<Page>, limits: seq<nat>, n: nat)
    requires Followed(sets, pages, limits) && n < |pages| && |sets| > 0
    ensures Covered(Concat(pages[..n]), CursorOf(pages, n), sets[0])
  {
    hide Followed, Covered, IsPage, LastOf;
    if n == 0 {
      NothingCovered(sets[0]);
    } else {
      FollowedPage(sets, pages, limits, n - 1);
      PrefixCovered(sets, pages, limits, n - 1);
      assert pages[..n][..n - 1] == pages[..n - 1];
      CoverNext(Concat(pages[..n - 1]), CursorOf(pages, n - 1), sets[0], sets[n - 1], pages[n - 1], limits[n - 1]);
    }
  }

  /**
   Following the cursors, with any page sizes and while intents are added, lists every intent that existed
   at the start exactly once, in descending order, and never repeats any other.
   */
  lemma FollowingListsEverything(sets: seq<set<Key>>, pages: seq<Page>, limits: seq<nat>)
    requires Followed(sets, pages, limits) && !pages[|pages| - 1].hasMore
    ensures Descending(Concat(pages))
    ensures forall k :: k in sets[0] ==> exists i :: 0 <= i < |Concat(pages)| && Concat(pages)[i] == k
    ensures forall i, j :: 0 <= i < j < |Concat(pages)| ==> Concat(pages)[i] != Concat(pages)[j]
  {
    var n := |pages| - 1;
    PrefixCovered(sets, pages, limits, n);
    GrowingSets(sets, n);
    assert pages[..|pages| - 1] == pages[..n];
    assert IsPage(pages[n], sets[n], CursorOf(pages, n), limits[n]);
    CoverNext(Concat(pages[..n]), CursorOf(pages, n), sets[0], sets[n], pages[n], limits[n]);
    hide Covered, IsPage;
    forall k | k in sets[0]
      ensures exists i :: 0 <= i < |Concat(pages)| && Concat(pages)[i] == k
    {
      assert k in Concat(pages);
    }
  }

  /** And it ends: every page but the last is full, so there are no more pages than intents listed, plus one. */
  lemma {:induction false} FollowingEnds(sets: seq<set<Key>>, pages: seq<Page>, limits: seq<nat>, n: nat)
    requires Followed(sets, pages, limits) && n <= |pages|
    ensures n <= |Concat(pages[..n])| + 1
    ensures n < |pages| ==> n <= |Concat(pages[..n])|
  {
    if n > 0 {
      FollowingEnds(sets, pages, limits, n - 1);
      assert pages[..n][..n - 1] == pages[..n - 1];
      assert IsPage(pages[n - 1], sets[n - 1], CursorOf(pages, n - 1), limits[n - 1]);
    }
  }

  lemma {:induction false} EntriesAreListed(sets: seq<set<Key>>, pages: seq<Page>, limits: seq<nat>, n: nat)
    requires Followed(sets, pages, limits) && n <= |pages|
    ensures forall k :: k in Concat(pages[..n]) ==> k in sets[|sets| - 1]
  {
    if n > 0 {
      EntriesAreListed(sets, pages, limits, n - 1);
      assert pages[..n][..n - 1] == pages[..n - 1];
      assert IsPage(pages[n - 1], sets[n - 1], CursorOf(pages, n - 1), limits[n - 1]);
      GrowingSets(sets[n - 1..], |sets| - n);
    }
  }

  /** Whether or not there is more, what was read descends, so nothing is read twice. */
  lemma FollowingDescends(sets: seq<set<Key>>, pages: seq<Page>, limits: seq<nat>)
    requires Followed(sets, pages, limits)
    ensures Descending(Concat(pages))
  {
    var n := |pages| - 1;
    PrefixCovered(sets, pages, limits, n);
    GrowingSets(sets, n);
    assert pages[..|pages| - 1] == pages[..n];
    assert IsPage(pages[n], sets[n], CursorOf(pages, n), limits[n]);
    CoverNext(Concat(pages[..n]), CursorOf(pages, n), sets[0], sets[n], pages[n], limits[n]);
  }

  /** There are at most as many pages as intents listed at the end, plus one. */
  lemma FollowingTerminates(sets: seq<set<Key>>, pages: seq<Page>, limits: seq<nat>)
    requires Followed(sets, pages, limits)
    ensures |pages| <= |sets[|sets| - 1]| + 1
  {
    FollowingEnds(sets, pages, limits, |pages|);
    EntriesAreListed(sets, pages, limits, |pages|);
    FollowingDescends(sets, pages, limits);
    assert pages[..|pages|] == pages;
    var listed := set k | k in Concat(pages);
    ListedCount(Concat(pages), listed);
    SubsetCount(listed, sets[|sets| - 1]);
  }

  lemma SubsetCount<T>(small: set<T>, large: set<T>)
    requires small <= large
    ensures |small| <= |large|
  {
    assert large == small + (large - small);
  }

  /** Between two pages the listing only grows: intents are never dropped, moved or given to another agent. */
  lemma ListingGrows(s: TreasuryState, s': TreasuryState, agent: Option<Id>)
    requires History.Extends(s, s')
    ensures Listed(s.intents, agent) <= Listed(s'.intents, agent)
  {
    forall k | k in Listed(s.intents, agent)
      ensures k in Listed(s'.intents, agent)
    {
      assert History.IntentExtends(s.intents[k.id], s'.intents[k.id]);
    }
  }

  // ----- following the identifiers the requests return -----

  /** The cursor of request `j`: none at first, then whatever the request before returned. */
  function NextCursor(answers: seq<Result<Page>>, j: nat): Option<Id>
    requires j <= |answers|
  {
    if j > 0 && answers[j - 1].Ok? then answers[j - 1].value.next else None
  }

  /**
   Requests of one actor, with any limits in range, made one after the other on states of the broker that extend
   each other, each with the cursor the one before returned, for as long as there is more.
   */
  ghost predicate Asked(states: seq<TreasuryState>, agent: Option<Id>, answers: seq<Result<Page>>, limits: seq<nat>) {
    && |states| == |answers| == |limits| && |answers| > 0
    && (forall j :: 0 <= j < |states| - 1 ==> History.Extends(states[j], states[j + 1]))
    && (forall j :: 0 <= j < |limits| ==> 0 < limits[j] <= PAGE_LIMIT)
    && (forall j :: 0 <= j < |answers| ==> Answers(answers[j], states[j].intents, agent, NextCursor(answers, j), limits[j]))
    && (forall j :: 0 <= j < |answers| - 1 ==> answers[j].Ok? ==> answers[j].value.hasMore)
  }

  /** A listed intent is named by its identifier alone. */
  lemma OneKeyPerId(intents: map<Id, Intent>, agent: Option<Id>, k: Key, l: Key)
    requires k in Listed(intents, agent) && l in Listed(intents, agent) && k.id == l.id
    ensures k == l
  {
  }

  /** A page that is not the last ends with the intent its cursor names. */
  lemma CursorNamesLast(page: Page, all: set<Key>, cursor: Option<Key>, limit: nat)
    requires IsPage(page, all, cursor, limit) && page.hasMore && 0 < limit
    ensures LastOf(page).Some? && LastOf(page).value in all && page.next == Some(LastOf(page).value.id)
  {
    assert page.entries[|page.entries| - 1] in page.entries;
  }

  /** Request `j` is accepted, and its page starts below the last entry of the page before. */
  ghost predicate Accepted(states: seq<TreasuryState>, agent: Option<Id>, answers: seq<Result<Page>>, limits: seq<nat>, j: nat)
    requires |states| == |answers| == |limits| && j < |answers|
  {
    && answers[j].Ok?
    && (j > 0 ==> answers[j - 1].Ok?)
    && IsPage(answers[j].value, Listed(states[j].intents, agent), if j == 0 then None else LastOf(answers[j - 1].value), limits[j])
  }

  lemma {:induction false} CursorIsAccepted(states: seq<TreasuryState>, agent: Option<Id>, answers: seq<Result<Page>>, limits: seq<nat>, j: nat)
    requires Asked(states, agent, answers, limits) && j < |answers|
    ensures Accepted(states, agent, answers, limits, j)
  {
    hide IsPage, LastOf, Listed, History.Extends;
    assert Answers(answers[j], states[j].intents, agent, NextCursor(answers, j), limits[j]);
    if j > 0 {
      CursorIsAccepted(states, agent, answers, limits, j - 1);
      var before, listed := answers[j - 1].value, Listed(states[j].intents, agent);
      CursorNamesLast(before, Listed(states[j - 1].intents, agent), if j == 1 then None else LastOf(answers[j - 2].value), limits[j - 1]);
      ListingGrows(states[j - 1], states[j], agent);
      var last := LastOf(before).value;
      assert last in listed && last.id == NextCursor(answers, j).value;
      var k :| k in listed && k.id == last.id && IsPage(answers[j].value, listed, Some(k), limits[j]);
      OneKeyPerId(states[j].intents, agent, k, last);
    }
  }

  ghost function PagesOf(answers: seq<Result<Page>>): (pages: seq<Page>)
    requires forall j :: 0 <= j < |answers| ==> answers[j].Ok?
  {
    seq(|answers|, j requires 0 <= j < |answers| => answers[j].value)
  }

  ghost function ListedBy(states: seq<TreasuryState>, agent: Option<Id>): seq<set<Key>> {
    seq(|states|, j requires 0 <= j < |states| => Listed(states[j].intents, agent))
  }

  lemma AllAccepted(states: seq<TreasuryState>, agent: Option<Id>, answers: seq<Result<Page>>, limits: seq<nat>)
    requires Asked(states, agent, answers, limits)
    ensures forall j :: 0 <= j < |answers| ==> answers[j].Ok?
  {
    hide IsPage, Listed, Answers, History.Extends;
    forall j | 0 <= j < |answers|
      ensures answers[j].Ok?
    {
      CursorIsAccepted(states, agent, answers, limits, j);
    }
  }

  lemma AskedIsFollowed(states: seq<TreasuryState>, agent: Option<Id>, answers: seq<Result<Page>>, limits: seq<nat>)
    requires Asked(states, agent, answers, limits)
    ensures forall j :: 0 <= j < |answers| ==> answers[j].Ok?
    ensures Followed(ListedBy(states, agent), PagesOf(answers), limits)
  {
    hide IsPage, Listed, Answers, History.Extends;
    AllAccepted(states, agent, answers, limits);
    var sets, pages := ListedBy(states, agent), PagesOf(answers);
    forall j | 0 <= j < |sets| - 1
      ensures sets[j] <= sets[j + 1]
    {
      ListingGrows(states[j], states[j + 1], agent);
    }
    forall j | 0 <= j < |pages|
      ensures IsPage(pages[j], sets[j], CursorOf(pages, j), limits[j])
    {
      CursorIsAccepted(states, agent, answers, limits, j);
    }
  }

  /**
   Whoever follows the returned cursors is never refused, reads every intent that existed at the start exactly
   once, newest first, repeats none of those created meanwhile, and is done after finitely many pages.
   */
  lemma ListingIsComplete(states: seq<TreasuryState>, agent: Option<Id>, answers: seq<Result<Page>>, limits: seq<nat>)
    requires Asked(states, agent, answers, limits)
    ensures forall j :: 0 <= j < |answers| ==> answers[j].Ok?
    ensures Descending(Concat(PagesOf(answers)))
    ensures |answers| <= |Listed(states[|states| - 1].intents, agent)| + 1
    ensures !answers[|answers| - 1].value.hasMore ==>
              forall i :: i in states[0].intents && (agent.None? || states[0].intents[i].agentId == agent.value) ==>
                Key(states[0].intents[i].createdAt, i) in Concat(PagesOf(answers))
  {
    hide IsPage, Answers, History.Extends, Followed;
    AskedIsFollowed(states, agent, answers, limits);
    var sets, pages := ListedBy(states, agent), PagesOf(answers);
    FollowingDescends(sets, pages, limits);
    FollowingTerminates(sets, pages, limits);
    if !answers[|answers| - 1].value.hasMore {
      FollowingListsEverything(sets, pages, limits);
      forall i | i in states[0].intents && (agent.None? || states[0].intents[i].agentId == agent.value)
        ensures Key(states[0].intents[i].createdAt, i) in Concat(pages)
      {
        assert Key(states[0].intents[i].createdAt, i) in sets[0];
      }
    }
  }

  // ----- the audit log -----

  /** The newest entries below a sequence, newest first, up to a limit. */
  function Newest(log: seq<AuditEntry>, cursor: Option<nat>, limit: nat): seq<AuditEntry> {
    if |log| == 0 || limit == 0 then []
    else
      var n := |log| - 1;
      if cursor.None? || log[n].body.sequence < cursor.value then [log[n]] + Newest(log[..n], cursor, limit - 1)
      else Newest(log[..n], cursor, limit)
  }

  datatype AuditPage = AuditPage(entries: seq<AuditEntry>, total: nat, next: Option<nat>, hasMore: bool)

  function AuditPageOf(log: seq<AuditEntry>, cursor: Option<nat>, limit: nat): AuditPage {
    var entries := Newest(log, cursor, limit);
    var hasMore := |entries| > 0 && entries[|entries| - 1].body.sequence > 1;
    AuditPage(entries, |log|, if hasMore then Some(entries[|entries| - 1].body.sequence) else None, hasMore)
  }

  lemma NewestNext(log: seq<AuditEntry>, n: nat, cursor: Option<nat>, limit: nat)
    requires n < |log| && 0 < limit
    ensures Newest(log[..n + 1], cursor, limit)
         == if cursor.None? || log[n].body.sequence < cursor.value then [log[n]] + Newest(log[..n], cursor, limit - 1)
            else Newest(log[..n], cursor, limit)
  {
    assert log[..n + 1][..n] == log[..n];
  }

  lemma NewestEnds(log: seq<AuditEntry>, cursor: Option<nat>, limit: nat)
    ensures |log| == 0 || limit == 0 ==> Newest(log, cursor, limit) == []
  {
  }

  /** `Newest` with what was collected so far. */
  function Collect(log: seq<AuditEntry>, n: nat, cursor: Option<nat>, limit: nat, entries: seq<AuditEntry>): seq<AuditEntry>
    requires n <= |log|
  {
    if n == 0 || |entries| >= limit then entries
    else if cursor.None? || log[n - 1].body.sequence < cursor.value then Collect(log, n - 1, cursor, limit, entries + [log[n - 1]])
    else Collect(log, n - 1, cursor, limit, entries)
  }

  lemma {:induction false} CollectIsNewest(log: seq<AuditEntry>, n: nat, cursor: Option<nat>, limit: nat, entries: seq<AuditEntry>)
    requires n <= |log| && |entries| <= limit
    ensures Collect(log, n, cursor, limit, entries) == entries + Newest(log[..n], cursor, limit - |entries|)
    decreases n
  {
    hide Newest;
    if n == 0 || |entries| >= limit {
      NewestEnds(log[..n], cursor, limit - |entries|);
    } else {
      NewestNext(log, n - 1, cursor, limit - |entries|);
      if cursor.None? || log[n - 1].body.sequence < cursor.value {
        CollectIsNewest(log, n - 1, cursor, limit, entries + [log[n - 1]]);
        var rest := Newest(log[..n - 1], cursor, limit - |entries| - 1);
        assert (entries + [log[n - 1]]) + rest == entries + ([log[n - 1]] + rest);
      } else {
        CollectIsNewest(log, n - 1, cursor, limit, entries);
      }
    }
  }

  /** The answer to one request for audit entries; any cursor is taken. */
  function AuditAnswer(log: seq<AuditEntry>, cursor: Option<nat>, limit: nat): Result<AuditPage> {
    if limit == 0 || limit > PAGE_LIMIT then Err(Invalid) else Ok(AuditPageOf(log, cursor, limit))
  }

  /** `owner_list_audit_page`: walk the log backwards, skip what the cursor has passed, take at most a page. */
  method ListAudit(log: seq<AuditEntry>, cursor: Option<nat>, limit: nat) returns (r: Result<AuditPage>)
    ensures r == AuditAnswer(log, cursor, limit)
  {
    hide Newest;
    if limit == 0 || limit > PAGE_LIMIT {
      return Err(Invalid);
    }
    var entries := [];
    var n := |log|;
    CollectIsNewest(log, n, cursor, limit, entries);
    assert log[..n] == log;
    while n > 0 && |entries| < limit
      invariant 0 <= n <= |log|
      invariant Collect(log, n, cursor, limit, entries) == Newest(log, cursor, limit)
      decreases n
    {
      n := n - 1;
      if cursor.None? || log[n].body.sequence < cursor.value {
        entries := entries + [log[n]];
      }
    }
    var hasMore := |entries| > 0 && entries[|entries| - 1].body.sequence > 1;
    return Ok(AuditPage(entries, |log|, if hasMore then Some(entries[|entries| - 1].body.sequence) else None, hasMore));
  }

  /** The first `m` entries of a log, newest first. */
  function Backwards(log: seq<AuditEntry>, m: nat): (r: seq<AuditEntry>)
    requires m <= |log|
    ensures |r| == m
  {
    if m == 0 then [] else [log[m - 1]] + Backwards(log, m - 1)
  }

  lemma {:induction false} BackwardsAt(log: seq<AuditEntry>, m: nat, i: nat)
    requires m <= |log| && i < m
    ensures Backwards(log, m)[i] == log[m - 1 - i]
  {
    if i > 0 {
      BackwardsAt(log, m - 1, i - 1);
    }
  }

  lemma {:induction false} BackwardsTail(log: seq<AuditEntry>, m: nat, k: nat)
    requires k <= m <= |log|
    ensures Backwards(log, m)[k..] == Backwards(log, m - k)
  {
    if k > 0 {
      BackwardsTail(log, m - 1, k - 1);
      assert Backwards(log, m)[k..] == Backwards(log, m - 1)[k - 1..];
    }
  }

  /** How many of the first `n` entries of a contiguous log lie below a cursor. */
  function Remaining(n: nat, cursor: Option<nat>): (m: nat)
    ensures m <= n
  {
    if cursor.None? || cursor.value > n then n else if cursor.value == 0 then 0 else cursor.value - 1
  }

  function Fewer(x: nat, y: nat): nat {
    if x < y then x else y
  }

  lemma BackwardsNext(log: seq<AuditEntry>, n: nat, m: nat)
    requires n < |log| && 0 < m <= n + 1
    ensures Backwards(log, n + 1)[..m] == [log[n]] + Backwards(log, n)[..m - 1]
  {
    hide Backwards;
    assert Backwards(log, n + 1) == [log[n]] + Backwards(log, n) by {
      BackwardsUnfolds(log, n);
    }
  }

  lemma BackwardsUnfolds(log: seq<AuditEntry>, n: nat)
    requires n < |log|
    ensures Backwards(log, n + 1) == [log[n]] + Backwards(log, n)
  {
  }

  /** Page entries are the next ones of the log read backwards. */
  lemma {:induction false} NewestIsBackwards(log: seq<AuditEntry>, n: nat, cursor: Option<nat>, limit: nat)
    requires ChainVerifies(log) && n <= |log|
    ensures Newest(log[..n], cursor, limit) == Backwards(log, Remaining(n, cursor))[..Fewer(limit, Remaining(n, cursor))]
    decreases n
  {
    hide Backwards, Newest;
    if n == 0 || limit == 0 {
      NewestEnds(log[..n], cursor, limit);
    } else {
      assert log[n - 1].body.sequence == n;
      hide ChainVerifies;
      NewestNext(log, n - 1, cursor, limit);
      if cursor.None? || n < cursor.value {
        NewestIsBackwards(log, n - 1, cursor, limit - 1);
        BackwardsNext(log, n - 1, Fewer(limit, n));
      } else {
        NewestIsBackwards(log, n - 1, cursor, limit);
      }
    }
  }

  lemma {:induction false} BackwardsOfPrefix(log: seq<AuditEntry>, n: nat, m: nat)
    requires m <= n <= |log|
    ensures Backwards(log[..n], m) == Backwards(log, m)
  {
    if m > 0 {
      BackwardsOfPrefix(log, n, m - 1);
    }
  }

  /** Audit pages asked for one after the other while the log may grow. */
  ghost predicate AuditFollowed(logs: seq<seq<AuditEntry>>, pages: seq<AuditPage>, limits: seq<nat>) {
    && |logs| == |pages| == |limits| && |pages| > 0
    && (forall j :: 0 <= j < |logs| ==> ChainVerifies(logs[j]) && logs[0] <= logs[j])
    && (forall j :: 0 <= j < |pages| ==> 0 < limits[j] && pages[j] == AuditPageOf(logs[j], CursorBefore(pages, j), limits[j]))
    && (forall j :: 0 <= j < |pages| - 1 ==> pages[j].hasMore)
  }

  ghost function CursorBefore(pages: seq<AuditPage>, j: nat): Option<nat>
    requires j <= |pages|
  {
    if j == 0 then None else pages[j - 1].next
  }

  ghost function AuditConcat(pages: seq<AuditPage>): seq<AuditEntry> {
    if |pages| == 0 then [] else AuditConcat(pages[..|pages| - 1]) + pages[|pages| - 1].entries
  }

  /** One page leaves off exactly where the next one goes on. */
  lemma AuditNext(log: seq<AuditEntry>, later: seq<AuditEntry>, m: nat, cursor: Option<nat>, limit: nat)
    requires ChainVerifies(later) && log <= later && m <= |log| && 0 < limit
    requires Remaining(|later|, cursor) == m
    ensures var page := AuditPageOf(later, cursor, limit);
            var left := m - Fewer(limit, m);
            && Backwards(log, m) == page.entries + Backwards(log, left)
            && (page.hasMore <==> left > 0) && page.next == (if left > 0 then Some(left + 1) else None)
  {
    hide Backwards, Newest, ChainVerifies;
    var k := Fewer(limit, m);
    NewestIsBackwards(later, |later|, cursor, limit);
    assert later[..|later|] == later && later[..|log|] == log;
    BackwardsOfPrefix(later, |log|, m);
    BackwardsTail(log, m, k);
    if k > 0 {
      BackwardsAt(later, m, k - 1);
      SequenceAt(later, m - k);
    }
    assert Backwards(log, m) == Backwards(log, m)[..k] + Backwards(log, m)[k..];
  }

  lemma SequenceAt(log: seq<AuditEntry>, i: nat)
    requires ChainVerifies(log) && i < |log|
    ensures log[i].body.sequence == i + 1
  {
  }

  /** How many of the oldest entries a page leaves for the next one. */
  function LeftBy(page: AuditPage): int {
    if page.next.Some? then page.next.value - 1 else 0
  }

  lemma {:induction false} AuditPrefix(logs: seq<seq<AuditEntry>>, pages: seq<AuditPage>, limits: seq<nat>, n: nat)
    requires AuditFollowed(logs, pages, limits) && 0 < n <= |pages|
    ensures var left := LeftBy(pages[n - 1]);
            && 0 <= left <= |logs[0]| && (pages[n - 1].hasMore <==> left > 0) && (left > 0 ==> pages[n - 1].next == Some(left + 1))
            && Backwards(logs[0], |logs[0]|) == AuditConcat(pages[..n]) + Backwards(logs[0], left)
  {
    hide ChainVerifies, AuditPageOf, Backwards;
    assert pages[..n][..n - 1] == pages[..n - 1];
    if n == 1 {
      FirstRemains(logs[0]);
      AuditNext(logs[0], logs[0], |logs[0]|, None, limits[0]);
      assert pages[0] == AuditPageOf(logs[0], CursorBefore(pages, 0), limits[0]);
      assert pages[..1] == [pages[0]] && AuditConcat(pages[..0]) == [];
    } else {
      AuditPrefix(logs, pages, limits, n - 1);
      assert pages[n - 2].hasMore;
      var m := LeftBy(pages[n - 2]);
      assert Remaining(|logs[n - 1]|, pages[n - 2].next) == m;
      AuditNext(logs[0], logs[n - 1], m, pages[n - 2].next, limits[n - 1]);
      assert pages[n - 1] == AuditPageOf(logs[n - 1], CursorBefore(pages, n - 1), limits[n - 1]);
    }
  }

  lemma FirstRemains(log: seq<AuditEntry>)
    ensures Remaining(|log|, None) == |log|
  {
  }

  /** Following the audit cursors lists the entries that were there at the start, newest first, each exactly once. */
  lemma FollowingListsTheLog(logs: seq<seq<AuditEntry>>, pages: seq<AuditPage>, limits: seq<nat>)
    requires AuditFollowed(logs, pages, limits) && !pages[|pages| - 1].hasMore
    ensures AuditConcat(pages) == Backwards(logs[0], |logs[0]|)
    ensures forall i :: 0 <= i < |logs[0]| ==> AuditConcat(pages)[i].body.sequence == |logs[0]| - i
  {
    AuditPrefix(logs, pages, limits, |pages|);
    assert pages[..|pages|] == pages;
    forall i | 0 <= i < |logs[0]|
      ensures Backwards(logs[0], |logs[0]|)[i].body.sequence == |logs[0]| - i
    {
      BackwardsAt(logs[0], |logs[0]|, i);
    }
  }

  /** Every page takes something off a log that is not empty. */
  lemma {:induction false} AuditCounts(logs: seq<seq<AuditEntry>>, pages: seq<AuditPage>, limits: seq<nat>, n: nat)
    requires AuditFollowed(logs, pages, limits) && 0 < n <= |pages| && 0 < |logs[0]|
    ensures n <= |AuditConcat(pages[..n])|
  {
    hide ChainVerifies, Newest, Backwards;
    AuditPrefix(logs, pages, limits, n);
    assert pages[..n][..n - 1] == pages[..n - 1];
    assert pages[n - 1] == AuditPageOf(logs[n - 1], CursorBefore(pages, n - 1), limits[n - 1]);
    if n > 1 {
      AuditCounts(logs, pages, limits, n - 1);
      AuditPrefix(logs, pages, limits, n - 1);
    }
  }

  /** And it ends, after at most as many pages as there were entries, or after one. */
  lemma AuditFollowingEnds(logs: seq<seq<AuditEntry>>, pages: seq<AuditPage>, limits: seq<nat>)
    requires AuditFollowed(logs, pages, limits)
    ensures |pages| <= |logs[0]| || |pages| == 1
  {
    hide ChainVerifies, AuditPageOf, Backwards;
    AuditPrefix(logs, pages, limits, |pages|);
    if |logs[0]| > 0 {
      AuditCounts(logs, pages, limits, |pages|);
    } else {
      AuditPrefix(logs, pages, limits, 1);
      assert !pages[0].hasMore;
    }
  }

  /** The cursor of request `j`: none at first, then whatever the request before returned. */
  function NextSequence(answers: seq<Result<AuditPage>>, j: nat): Option<nat>
    requires j <= |answers|
  {
    if j > 0 && answers[j - 1].Ok? then answers[j - 1].value.next else None
  }

  /**
   Requests for audit entries, with any limits in range, made one after the other on states of the broker that
   extend each other, each with the cursor the one before returned, for as long as there is more.
   */
  ghost predicate AuditAsked(states: seq<TreasuryState>, answers: seq<Result<AuditPage>>, limits: seq<nat>) {
    && |states| == |answers| == |limits| && |answers| > 0
    && (forall j :: 0 <= j < |states| - 1 ==> History.Extends(states[j], states[j + 1]))
    && (forall j :: 0 <= j < |states| ==> ChainVerifies(states[j].audit))
    && (forall j :: 0 <= j < |limits| ==> 0 < limits[j] <= PAGE_LIMIT)
    && (forall j :: 0 <= j < |answers| ==> answers[j] == AuditAnswer(states[j].audit, NextSequence(answers, j), limits[j]))
    && (forall j :: 0 <= j < |answers| - 1 ==> answers[j].Ok? ==> answers[j].value.hasMore)
  }

  lemma {:induction false} LogsGrow(states: seq<TreasuryState>, j: nat)
    requires j < |states| && forall i :: 0 <= i < |states| - 1 ==> History.Extends(states[i], states[i + 1])
    ensures states[0].audit <= states[j].audit
  {
    if j > 0 {
      LogsGrow(states, j - 1);
      assert History.Extends(states[j - 1], states[j]);
    }
  }

  ghost function LogsOf(states: seq<TreasuryState>): seq<seq<AuditEntry>> {
    seq(|states|, j requires 0 <= j < |states| => states[j].audit)
  }

  ghost function AuditPagesOf(answers: seq<Result<AuditPage>>): seq<AuditPage>
    requires forall j :: 0 <= j < |answers| ==> answers[j].Ok?
  {
    seq(|answers|, j requires 0 <= j < |answers| => answers[j].value)
  }

  lemma AuditAskedIsFollowed(states: seq<TreasuryState>, answers: seq<Result<AuditPage>>, limits: seq<nat>)
    requires AuditAsked(states, answers, limits)
    ensures forall j :: 0 <= j < |answers| ==> answers[j].Ok?
    ensures AuditFollowed(LogsOf(states), AuditPagesOf(answers), limits)
  {
    hide ChainVerifies, AuditPageOf, AuditAnswer, NextSequence, CursorBefore;
    assert |states| == |answers| == |limits| && |answers| > 0;
    hide AuditAsked;
    forall j | 0 <= j < |answers|
      ensures answers[j].Ok? && ChainVerifies(states[j].audit) && states[0].audit <= states[j].audit && 0 < limits[j]
      ensures answers[j].value == AuditPageOf(states[j].audit, NextSequence(answers, j), limits[j])
      ensures j < |answers| - 1 ==> answers[j].value.hasMore
    {
      AuditAskedAt(states, answers, limits, j);
    }
    forall j | 0 <= j < |answers|
      ensures NextSequence(answers, j) == CursorBefore(AuditPagesOf(answers), j)
    {
      SameCursor(answers, j);
    }
  }

  lemma SameCursor(answers: seq<Result<AuditPage>>, j: nat)
    requires j < |answers| && forall i :: 0 <= i < |answers| ==> answers[i].Ok?
    ensures NextSequence(answers, j) == CursorBefore(AuditPagesOf(answers), j)
  {
  }

  /** No request is refused, and each gets the page for its cursor. */
  lemma AuditAskedAt(states: seq<TreasuryState>, answers: seq<Result<AuditPage>>, limits: seq<nat>, j: nat)
    requires AuditAsked(states, answers, limits) && j < |answers|
    ensures answers[j].Ok? && answers[j].value == AuditPageOf(states[j].audit, NextSequence(answers, j), limits[j])
    ensures ChainVerifies(states[j].audit) && states[0].audit <= states[j].audit && 0 < limits[j]
    ensures j < |answers| - 1 ==> answers[j].value.hasMore
  {
    hide ChainVerifies, AuditPageOf, History.Extends, NextSequence;
    LogsGrow(states, j);
  }

  /** What is read of a verifying log, up to what is left, are its entries from the newest down. */
  lemma ReadDescends(log: seq<AuditEntry>, read: seq<AuditEntry>, left: nat)
    requires ChainVerifies(log) && left <= |log| && Backwards(log, |log|) == read + Backwards(log, left)
    ensures |read| == |log| - left
    ensures forall i :: 0 <= i < |read| ==> read[i] == log[|log| - 1 - i] && read[i].body.sequence == |log| - i
  {
    hide ChainVerifies, Backwards;
    forall i | 0 <= i < |read|
      ensures read[i] == log[|log| - 1 - i] && read[i].body.sequence == |log| - i
    {
      BackwardsAt(log, |log|, i);
      SequenceAt(log, |log| - 1 - i);
    }
  }

  /**
   Whoever follows the returned cursors is never refused, reads the sequences from the newest at the start down
   to 1, each exactly once and whatever is logged meanwhile, and is done after finitely many pages.
   */
  lemma AuditListingIsComplete(states: seq<TreasuryState>, answers: seq<Result<AuditPage>>, limits: seq<nat>)
    requires AuditAsked(states, answers, limits)
    ensures forall j :: 0 <= j < |answers| ==> answers[j].Ok?
    ensures |answers| <= |states[0].audit| || |answers| == 1
    ensures var read := AuditConcat(AuditPagesOf(answers));
            && |read| <= |states[0].audit|
            && (forall i :: 0 <= i < |read| ==>
                  read[i] == states[0].audit[|states[0].audit| - 1 - i] && read[i].body.sequence == |states[0].audit| - i)
            && (!answers[|answers| - 1].value.hasMore ==> |read| == |states[0].audit|)
  {
    hide ChainVerifies, AuditFollowed, AuditAnswer, History.Extends, Backwards;
    AuditAskedIsFollowed(states, answers, limits);
    var log, pages := states[0].audit, AuditPagesOf(answers);
    AuditFollowingEnds(LogsOf(states), pages, limits);
    AuditPrefix(LogsOf(states), pages, limits, |pages|);
    assert pages[..|pages|] == pages;
    ReadDescends(log, AuditConcat(pages), LeftBy(pages[|pages| - 1]));
  }
}
