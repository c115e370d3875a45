// The paged inbox read (internal/platform/consumer.go) and Run's syncs.

module Inbox {
  // Daemon.Run makes the syncs (internal/daemon/daemon.go). Handling an item has effects, which
  // are kept as a trace.

  import opened TurnTypes

  /** What handling an item does and how it returns, given whether the MCP servers were found
      up before. */
  type Handling = (bool, Delivery) -> (seq<Effect>, Outcome)

  /** Handling items one after the other. */
  function Blocks(handle: Handling, ready: bool, ds: seq<Delivery>): seq<Effect> {
    if ds == [] then [] else
      var before, last := ds[..|ds| - 1], ds[|ds| - 1];
      Blocks(handle, ready, before) + handle(Ready(ready, before), last).0
  }

  /** Once found up, the MCP servers are not waited for again. */
  predicate Ready(ready: bool, ds: seq<Delivery>) {
    ready || exists i :: 0 <= i < |ds| && ds[i].world.mcpUp
  }

  function OutcomeAt(handle: Handling, ready: bool, ds: seq<Delivery>, i: nat): Outcome
    requires i < |ds|
  {
    handle(Ready(ready, ds[..i]), ds[i]).1
  }

  predicate StringLess(a: string, b: string) {
    if b == "" then false
    else if a == "" then true
    else a[0] < b[0] || (a[0] == b[0] && StringLess(a[1..], b[1..]))
  }

  /** The order a page is handled in. */
  predicate Before(a: Delivery, b: Delivery) {
    a.message.createdAt < b.message.createdAt
    || (a.message.createdAt == b.message.createdAt && StringLess(a.message.id, b.message.id))
  }

  function Insert(d: Delivery, sorted: seq<Delivery>): seq<Delivery> {
    if sorted == [] || !Before(sorted[0], d) then [d] + sorted else [sorted[0]] + Insert(d, sorted[1..])
  }

  function SortPage(page: seq<Delivery>): seq<Delivery> {
    if page == [] then [] else Insert(page[0], SortPage(page[1..]))
  }

  /** No message comes before the one handled just before it. */
  ghost predicate InOrder(ds: seq<Delivery>) {
    forall i, j | 0 <= i < j < |ds| :: !Before(ds[j], ds[i])
  }

  lemma {:induction false} StringOrder(a: string, b: string, c: string)
    ensures !StringLess(a, a)
    ensures a == b || StringLess(a, b) || StringLess(b, a)
    ensures StringLess(a, b) && StringLess(b, c) ==> StringLess(a, c)
    ensures StringLess(a, b) ==> !StringLess(b, a)
    decreases |a| + |b| + |c|
  {
    if a != "" && b != "" {
      if c != "" {
        StringOrder(a[1..], b[1..], c[1..]);
      } else {
        StringOrder(a[1..], b[1..], "");
      }
      assert a == [a[0]] + a[1..] && b == [b[0]] + b[1..];
    } else if a != "" {
      StringOrder(a[1..], "", "");
    }
  }

  lemma {:induction false} BeforeOrder(a: Delivery, b: Delivery, c: Delivery)
    ensures !Before(a, a)
    ensures Before(a, b) ==> !Before(b, a)
    ensures !Before(b, a) && !Before(c, b) ==> !Before(c, a)
    ensures !Before(a, b) && !Before(b, a) ==> a.message.id == b.message.id
  {
    StringOrder(a.message.id, b.message.id, c.message.id);
    StringOrder(c.message.id, a.message.id, b.message.id);
    StringOrder(b.message.id, c.message.id, a.message.id);
  }

  lemma {:induction false} InsertKeeps(d: Delivery, sorted: seq<Delivery>)
    requires InOrder(sorted)
    ensures InOrder(Insert(d, sorted)) && multiset(Insert(d, sorted)) == multiset([d] + sorted)
    ensures forall x | x in Insert(d, sorted) :: x == d || x in sorted
  {
    var inserted := Insert(d, sorted);
    if sorted == [] {
    } else if !Before(sorted[0], d) {
      forall j | 1 <= j < |inserted| ensures !Before(inserted[j], d) {
        assert inserted[j] == sorted[j - 1];
        BeforeOrder(d, sorted[0], inserted[j]);
      }
    } else {
      var rest := Insert(d, sorted[1..]);
      InsertKeeps(d, sorted[1..]);
      assert sorted == [sorted[0]] + sorted[1..];
      forall j | 0 <= j < |rest| ensures !Before(rest[j], sorted[0]) {
        assert rest[j] in rest;
        BeforeOrder(sorted[0], d, d);
        if rest[j] != d {
          var k :| 0 <= k < |sorted[1..]| && sorted[1..][k] == rest[j];
          assert sorted[k + 1] == rest[j];
        }
      }
      assert forall j | 1 <= j < |inserted| :: inserted[j] == rest[j - 1];
    }
  }

  lemma {:induction false} SortPageSorts(page: seq<Delivery>)
    ensures InOrder(SortPage(page)) && multiset(SortPage(page)) == multiset(page)
  {
    if page != [] {
      SortPageSorts(page[1..]);
      InsertKeeps(page[0], SortPage(page[1..]));
      assert page == [page[0]] + page[1..];
    }
  }

  /** a comes before b as Go compares strings: where they first differ b's character is the
      greater, or a ends there. */
  ghost predicate Lexical(a: string, b: string) {
    exists n: nat :: FirstDifference(a, b, n) && n < |b| && (n < |a| ==> a[n] < b[n])
  }

  predicate FirstDifference(a: string, b: string, n: nat) {
    n <= |a| && n <= |b| && a[..n] == b[..n] && (n < |a| && n < |b| ==> a[n] != b[n])
  }

  lemma {:induction false} StringLessIs(a: string, b: string)
    ensures StringLess(a, b) <==> Lexical(a, b)
  {
    if b != "" && (a == "" || a[0] != b[0]) {
      FirstAtOnce(a, b);
    } else if a != "" && b != "" {
      StringLessIs(a[1..], b[1..]);
      LexicalTail(a, b);
    }
  }

  lemma {:induction false} SameStart(a: string, b: string, n: nat)
    requires FirstDifference(a, b, n) && n > 0
    ensures a != "" && b != "" && a[0] == b[0]
  {
    assert a[0] == a[..n][0] && b[0] == b[..n][0];
  }

  lemma {:induction false} FirstAtOnce(a: string, b: string)
    requires b != "" && (a == "" || a[0] != b[0])
    ensures Lexical(a, b) <==> a == "" || a[0] < b[0]
  {
    assert a[..0] == b[..0] == "";
    assert FirstDifference(a, b, 0);
    forall n: nat | FirstDifference(a, b, n) ensures n == 0 {
      if n > 0 {
        SameStart(a, b, n);
      }
    }
  }

  lemma {:induction false} LexicalTail(a: string, b: string)
    requires a != "" && b != "" && a[0] == b[0]
    ensures Lexical(a, b) <==> Lexical(a[1..], b[1..])
  {
    if Lexical(a, b) {
      var n: nat :| FirstDifference(a, b, n) && n < |b| && (n < |a| ==> a[n] < b[n]);
      assert n > 0 && a[1..][..n - 1] == a[..n][1..] && b[1..][..n - 1] == b[..n][1..];
      assert FirstDifference(a[1..], b[1..], n - 1);
    }
    if Lexical(a[1..], b[1..]) {
      var n: nat :| FirstDifference(a[1..], b[1..], n) && n < |b[1..]| && (n < |a[1..]| ==> a[1..][n] < b[1..][n]);
      assert a[..n + 1] == [a[0]] + a[1..][..n] && b[..n + 1] == [b[0]] + b[1..][..n];
      assert FirstDifference(a, b, n + 1);
    }
  }

  /** Along a page the time of creation never falls, and messages of one time stand by id. */
  lemma {:induction false} PageIsOldestFirst(page: seq<Delivery>, i: nat, j: nat)
    requires i < j < |page|
    ensures |SortPage(page)| == |page|
    ensures
      var a, b := SortPage(page)[i].message, SortPage(page)[j].message;
      && a.createdAt <= b.createdAt
      && (a.createdAt == b.createdAt ==> a.id == b.id || Lexical(a.id, b.id))
  {
    SortPageSorts(page);
    assert |multiset(page)| == |page| && |multiset(SortPage(page))| == |SortPage(page)|;
    var a, b := SortPage(page)[i], SortPage(page)[j];
    StringOrder(a.message.id, b.message.id, a.message.id);
    StringLessIs(a.message.id, b.message.id);
  }

  ghost predicate DistinctIDs(ds: seq<Delivery>) {
    forall i, j | 0 <= i < j < |ds| :: ds[i].message.id != ds[j].message.id
  }

  lemma {:induction false} HeadsAgree(a: seq<Delivery>, b: seq<Delivery>)
    requires InOrder(a) && InOrder(b) && DistinctIDs(a) && a != [] && b != []
    requires a[0] in b && b[0] in a
    ensures a[0] == b[0]
  {
    var i :| 0 <= i < |a| && a[i] == b[0];
    var j :| 0 <= j < |b| && b[j] == a[0];
    BeforeOrder(a[0], b[0], a[0]);
  }

  lemma {:induction false} TailMultiset(a: seq<Delivery>)
    requires a != []
    ensures multiset(a[1..]) == multiset(a) - multiset{a[0]}
  {
    assert a == [a[0]] + a[1..];
  }

  /** Whatever sorting algorithm is used, a page of distinct messages is handled in one order. */
  lemma {:induction false} PageOrderIsUnique(a: seq<Delivery>, b: seq<Delivery>)
    requires InOrder(a) && InOrder(b) && multiset(a) == multiset(b)
    requires DistinctIDs(a)
    ensures a == b
  {
    assert |multiset(a)| == |a| && |multiset(b)| == |b|;
    if a != [] {
      assert b[0] in multiset(b) && a[0] in multiset(a);
      HeadsAgree(a, b);
      TailMultiset(a);
      TailMultiset(b);
      PageOrderIsUnique(a[1..], b[1..]);
    }
  }

  /** One answer to a page request; the last page names no next. */
  datatype Reply = Page(deliveries: seq<Delivery>, next: string) | FetchFailed

  /** A server's answers over one sync: each page but the last names a next one. */
  predicate Answers(replies: seq<Reply>) {
    && replies != []
    && (forall i | 0 <= i < |replies| - 1 :: replies[i].Page? && replies[i].next != "")
    && (var last := replies[|replies| - 1]; last.Page? ==> last.next == "")
  }

  /** The items of the pages, in the order they are handled. */
  function Ordered(replies: seq<Reply>): seq<Delivery> {
    if replies == [] then [] else
      Ordered(replies[..|replies| - 1]) +
      match replies[|replies| - 1]
      case Page(deliveries, _) => SortPage(deliveries)
      case FetchFailed => []
  }

  /** What is handled is the pages' items, page after page, each page sorted on its own. */
  lemma {:induction false} PagesInTurn(a: seq<Reply>, b: seq<Reply>)
    ensures Ordered(a + b) == Ordered(a) + Ordered(b)
    ensures forall page, next :: Ordered([Page(page, next)]) == SortPage(page)
    ensures Ordered([FetchFailed]) == []
  {
    forall reply: Reply ensures [reply][..0] == [] {
    }
    if b == [] {
      assert a + b == a;
    } else {
      assert (a + b)[..|a + b| - 1] == a + b[..|b| - 1];
      PagesInTurn(a, b[..|b| - 1]);
    }
  }

  /** The sync read everything the server had to say. */
  predicate Complete(replies: seq<Reply>) {
    Answers(replies) && replies[|replies| - 1].Page?
  }

  /** The first n items handled returned nil. */
  ghost predicate AllNil(handle: Handling, ready: bool, handled: seq<Delivery>, n: int)
    requires n <= |handled|
  {
    forall i | 0 <= i < n :: OutcomeAt(handle, ready, handled, i).Nil?
  }

  /** The last item handled, and no other, returned an error: outcome. */
  ghost predicate StoppedBy(handle: Handling, ready: bool, handled: seq<Delivery>, outcome: Outcome) {
    && handled != [] && !outcome.Nil?
    && OutcomeAt(handle, ready, handled, |handled| - 1) == outcome
    && AllNil(handle, ready, handled, |handled| - 1)
  }

  /** What a sync does: handle the ordered items up to the first that returns an error, or up
      to the page that could not be fetched. */
  ghost predicate SyncOf(handle: Handling, ready: bool, replies: seq<Reply>, handled: seq<Delivery>, outcome: Outcome) {
    && handled <= Ordered(replies)
    && (StoppedBy(handle, ready, handled, outcome)
        || (&& AllNil(handle, ready, handled, |handled|)
            && handled == Ordered(replies)
            && outcome == if Complete(replies) then Nil else Retryable))
  }

  /** A sync that has handled all of the pages fetched so far. */
  ghost predicate Midway(handle: Handling, ready: bool, replies: seq<Reply>, fetched: nat, handled: seq<Delivery>) {
    fetched < |replies| && handled == Ordered(replies[..fetched]) && AllNil(handle, ready, handled, |handled|)
  }

  lemma {:induction false} OrderedNext(replies: seq<Reply>, fetched: nat)
    requires fetched < |replies| && replies[fetched].Page?
    ensures Ordered(replies[..fetched + 1]) == Ordered(replies[..fetched]) + SortPage(replies[fetched].deliveries)
  {
    assert replies[..fetched + 1][..fetched] == replies[..fetched];
  }

  lemma {:induction false} FetchEndsSync(handle: Handling, ready: bool, replies: seq<Reply>, fetched: nat, handled: seq<Delivery>)
    requires Answers(replies) && fetched < |replies| && replies[fetched].FetchFailed?
    requires handled == Ordered(replies[..fetched]) && AllNil(handle, ready, handled, |handled|)
    ensures SyncOf(handle, ready, replies, handled, Retryable)
  {
    assert fetched == |replies| - 1;
    assert handled + [] == handled;
  }

  lemma {:induction false} ErrorEndsSync(handle: Handling, ready: bool, replies: seq<Reply>, fetched: nat,
                                         handled: seq<Delivery>, outcome: Outcome)
    requires fetched < |replies| && handled <= Ordered(replies[..fetched + 1]) && StoppedBy(handle, ready, handled, outcome)
    ensures SyncOf(handle, ready, replies, handled, outcome)
  {
    OrderedPrefix(replies, fetched + 1);
  }

  lemma {:induction false} LastPageEndsSync(handle: Handling, ready: bool, replies: seq<Reply>, fetched: nat, handled: seq<Delivery>)
    requires Answers(replies) && fetched < |replies| && replies[fetched].Page? && replies[fetched].next == ""
    requires handled == Ordered(replies[..fetched + 1]) && AllNil(handle, ready, handled, |handled|)
    ensures SyncOf(handle, ready, replies, handled, Nil)
  {
    assert replies[..fetched + 1] == replies;
  }

  /** The consumer with the state its handler keeps: the effects so far and whether the MCP
      servers were found up. */
  class Consumer {
    var trace: seq<Effect>
    var ready: bool

    constructor (ready: bool)
      ensures trace == [] && this.ready == ready
    {
      this.trace, this.ready := [], ready;
    }

    method HandleNext(handle: Handling, d: Delivery, ghost from: bool, ghost before: seq<Delivery>)
      returns (outcome: Outcome, ghost handled: seq<Delivery>)
      requires ready == Ready(from, before)
      modifies this
      ensures handled == before + [d] && ready == Ready(from, handled)
      ensures Blocks(handle, from, handled) == Blocks(handle, from, before) + handle(old(ready), d).0
      ensures trace == old(trace) + handle(old(ready), d).0
      ensures outcome == OutcomeAt(handle, from, handled, |before|)
      ensures forall i | 0 <= i < |before| :: OutcomeAt(handle, from, handled, i) == OutcomeAt(handle, from, before, i)
    {
      HandledNext(handle, from, before, d);
      handled := before + [d];
      var (effects, result) := handle(ready, d);
      trace, outcome := trace + effects, result;
      ready := ready || d.world.mcpUp;
    }

    /** Handle one page in order, up to the first error. start is the trace before the sync. */
    method HandlePage(handle: Handling, page: seq<Delivery>,
                      ghost start: seq<Effect>, ghost from: bool, ghost before: seq<Delivery>)
      returns (outcome: Outcome, ghost handled: seq<Delivery>)
      requires ready == Ready(from, before) && trace == start + Blocks(handle, from, before)
      requires AllNil(handle, from, before, |before|)
      modifies this
      ensures ready == Ready(from, handled) && trace == start + Blocks(handle, from, handled)
      ensures handled <= before + page
      ensures if outcome.Nil? then handled == before + page && AllNil(handle, from, handled, |handled|)
              else StoppedBy(handle, from, handled, outcome)
    {
      handled, outcome := before, Nil;
      var i := 0;
      while i < |page|
        invariant 0 <= i <= |page|
        invariant handled == before + page[..i] && AllNil(handle, from, handled, |handled|)
        invariant ready == Ready(from, handled) && trace == start + Blocks(handle, from, handled)
        invariant outcome.Nil?
      {
        outcome, handled := HandleNext(handle, page[i], from, handled);
        assert handled == before + page[..i + 1];
        if !outcome.Nil? {
          return;
        }
        i := i + 1;
      }
      assert page[..i] == page;
    }

    /** Fetch the next page and handle it: the sync is over, or goes on with the page after. */
    method SyncPage(handle: Handling, replies: seq<Reply>, fetched: nat,
                    ghost start: seq<Effect>, ghost from: bool, ghost before: seq<Delivery>)
      returns (over: bool, outcome: Outcome, ghost handled: seq<Delivery>)
      requires Answers(replies) && Midway(handle, from, replies, fetched, before)
      requires ready == Ready(from, before) && trace == start + Blocks(handle, from, before)
      modifies this
      ensures ready == Ready(from, handled) && trace == start + Blocks(handle, from, handled)
      ensures if over then SyncOf(handle, from, replies, handled, outcome) else Midway(handle, from, replies, fetched + 1, handled)
    {
      var reply := replies[fetched];
      if reply.FetchFailed? {
        FetchEndsSync(handle, from, replies, fetched, before);
        return true, Retryable, before;
      }
      OrderedNext(replies, fetched);
      outcome, handled := HandlePage(handle, SortPage(reply.deliveries), start, from, before);
      over := true;
      if !outcome.Nil? {
        ErrorEndsSync(handle, from, replies, fetched, handled, outcome);
        return;
      }
      if reply.next == "" {
        LastPageEndsSync(handle, from, replies, fetched, handled);
        return;
      }
      over := false;
    }

    /** Read the pages one by one, handling each in order, up to the first error. */
    method Sync(handle: Handling, replies: seq<Reply>) returns (outcome: Outcome, ghost handled: seq<Delivery>)
      requires Answers(replies)
      modifies this
      ensures SyncOf(handle, old(ready), replies, handled, outcome)
      ensures trace == old(trace) + Blocks(handle, old(ready), handled)
      ensures ready == Ready(old(ready), handled)
    {
      ghost var start, from := trace, ready;
      handled, outcome := [], Nil;
      var fetched, over := 0, false;
      assert replies[..fetched] == [] && start + Blocks(handle, from, handled) == start;
      while !over
        invariant ready == Ready(from, handled) && trace == start + Blocks(handle, from, handled)
        invariant if over then SyncOf(handle, from, replies, handled, outcome) else Midway(handle, from, replies, fetched, handled)
        decreases !over, |replies| - fetched
      {
        over, outcome, handled := SyncPage(handle, replies, fetched, start, from, handled);
        fetched := fetched + 1;
      }
    }

    /** Run's syncs, one after the other until one is terminal: lists says what each handled,
        outcomes how it ended. */
    method ServeInbox(handle: Handling, syncs: seq<seq<Reply>>)
      returns (outcome: Outcome, ghost lists: seq<seq<Delivery>>, ghost outcomes: seq<Outcome>)
      requires forall replies | replies in syncs :: Answers(replies)
      modifies this
      ensures Served(handle, old(ready), syncs, lists, outcomes)
      ensures outcome == if outcomes == [] then Nil else outcomes[|outcomes| - 1]
      ensures trace == old(trace) + Blocks(handle, old(ready), Flat(lists)) && ready == Ready(old(ready), Flat(lists))
    {
      ghost var start, from := trace, ready;
      ghost var done: seq<Delivery> := [];
      lists, outcomes, outcome := [], [], Nil;
      var i := 0;
      while i < |syncs| && !outcome.Terminal?
        invariant 0 <= i <= |syncs| && i == |lists| && done == Flat(lists)
        invariant ServedSoFar(handle, from, syncs, lists, outcomes)
        invariant outcome == if outcomes == [] then Nil else outcomes[|outcomes| - 1]
        invariant ready == Ready(from, done) && trace == start + Blocks(handle, from, done)
      {
        ghost var more;
        outcome, more := ServeNext(handle, syncs[i], done, start, from);
        ServedNext(handle, from, syncs, lists, outcomes, more, outcome);
        done, lists, outcomes := done + more, lists + [more], outcomes + [outcome];
        i := i + 1;
      }
    }

    /** One sync after those that handled before. */
    method ServeNext(handle: Handling, replies: seq<Reply>, ghost before: seq<Delivery>, ghost start: seq<Effect>, ghost from: bool)
      returns (outcome: Outcome, ghost more: seq<Delivery>)
      requires Answers(replies)
      requires ready == Ready(from, before) && trace == start + Blocks(handle, from, before)
      modifies this
      ensures SyncOf(handle, Ready(from, before), replies, more, outcome)
      ensures ready == Ready(from, before + more) && trace == start + Blocks(handle, from, before + more)
    {
      outcome, more := Sync(handle, replies);
      ReadyConcat(from, before, more);
      BlocksConcat(handle, from, before, more);
    }
  }

  /** Everything handled, sync after sync. */
  ghost function Flat(lists: seq<seq<Delivery>>): seq<Delivery> {
    if lists == [] then [] else Flat(lists[..|lists| - 1]) + lists[|lists| - 1]
  }

  /** The first syncs were run one after the other, each from where the last left off, and none
      but perhaps the last of them ended in a terminal error. */
  ghost predicate ServedSoFar(handle: Handling, ready: bool, syncs: seq<seq<Reply>>,
                              lists: seq<seq<Delivery>>, outcomes: seq<Outcome>)
    decreases |lists|
  {
    && |lists| == |outcomes| <= |syncs|
    && (lists != [] ==>
          var n := |lists| - 1;
          && ServedSoFar(handle, ready, syncs, lists[..n], outcomes[..n])
          && (n > 0 ==> !outcomes[n - 1].Terminal?)
          && SyncOf(handle, Ready(ready, Flat(lists[..n])), syncs[n], lists[n], outcomes[n]))
  }

  /** All were run, or all up to the first that ended in a terminal error. */
  ghost predicate Served(handle: Handling, ready: bool, syncs: seq<seq<Reply>>,
                         lists: seq<seq<Delivery>>, outcomes: seq<Outcome>) {
    && ServedSoFar(handle, ready, syncs, lists, outcomes)
    && (|lists| == |syncs| || (outcomes != [] && outcomes[|outcomes| - 1].Terminal?))
  }

  lemma {:induction false} ServedNext(handle: Handling, ready: bool, syncs: seq<seq<Reply>>, lists: seq<seq<Delivery>>,
                                      outcomes: seq<Outcome>, more: seq<Delivery>, outcome: Outcome)
    requires ServedSoFar(handle, ready, syncs, lists, outcomes) && |lists| < |syncs|
    requires outcomes != [] ==> !outcomes[|outcomes| - 1].Terminal?
    requires SyncOf(handle, Ready(ready, Flat(lists)), syncs[|lists|], more, outcome)
    ensures ServedSoFar(handle, ready, syncs, lists + [more], outcomes + [outcome])
    ensures Flat(lists + [more]) == Flat(lists) + more
  {
    var all := lists + [more];
    assert all[..|lists|] == lists && (outcomes + [outcome])[..|lists|] == outcomes;
  }

  ghost predicate EndsTerminal(handle: Handling, ready: bool, handled: seq<Delivery>) {
    handled != [] && OutcomeAt(handle, ready, handled, |handled| - 1).Terminal?
  }

  ghost predicate NoEarlierTerminal(handle: Handling, ready: bool, handled: seq<Delivery>) {
    forall i | 0 <= i < |handled| - 1 :: !OutcomeAt(handle, ready, handled, i).Terminal?
  }

  /** A run of syncs ends on the first terminal error of an item, if there is one. */
  lemma {:induction false} ServedEndsOnTerminal(handle: Handling, ready: bool, syncs: seq<seq<Reply>>,
                                                lists: seq<seq<Delivery>>, outcomes: seq<Outcome>)
    requires ServedSoFar(handle, ready, syncs, lists, outcomes)
    ensures EndsTerminal(handle, ready, Flat(lists)) <==> outcomes != [] && outcomes[|outcomes| - 1].Terminal?
    ensures NoEarlierTerminal(handle, ready, Flat(lists))
  {
    if lists != [] {
      var n := |lists| - 1;
      var before := lists[..n];
      ServedEndsOnTerminal(handle, ready, syncs, before, outcomes[..n]);
      SyncJoins(handle, ready, Flat(before), syncs[n], lists[n], outcomes[n]);
    }
  }

  /** One more sync after those before it. */
  lemma {:induction false} SyncJoins(handle: Handling, ready: bool, handled: seq<Delivery>, replies: seq<Reply>,
                  more: seq<Delivery>, outcome: Outcome)
    requires NoEarlierTerminal(handle, ready, handled) && !EndsTerminal(handle, ready, handled)
    requires SyncOf(handle, Ready(ready, handled), replies, more, outcome)
    ensures EndsTerminal(handle, ready, handled + more) <==> outcome.Terminal?
    ensures NoEarlierTerminal(handle, ready, handled + more)
  {
    var all := handled + more;
    SyncTerminals(handle, Ready(ready, handled), replies, more, outcome);
    forall i | 0 <= i < |all| ensures OutcomeAt(handle, ready, all, i).Terminal? <==> outcome.Terminal? && i == |all| - 1 {
      OutcomeConcat(handle, ready, handled, more, i);
    }
  }

  /** Only the last item of a sync can end in a terminal error, and the sync then does. */
  lemma {:induction false} SyncTerminals(handle: Handling, ready: bool, replies: seq<Reply>, more: seq<Delivery>, outcome: Outcome)
    requires SyncOf(handle, ready, replies, more, outcome)
    ensures forall i | 0 <= i < |more| :: OutcomeAt(handle, ready, more, i).Terminal? <==> outcome.Terminal? && i == |more| - 1
    ensures outcome.Terminal? ==> more != []
  {
  }

  lemma {:induction false} OrderedPrefix(replies: seq<Reply>, n: nat)
    requires n <= |replies|
    ensures Ordered(replies[..n]) <= Ordered(replies)
    decreases |replies| - n
  {
    if n == |replies| {
      assert replies[..n] == replies;
    } else {
      OrderedPrefix(replies, n + 1);
      assert replies[..n + 1][..n] == replies[..n];
    }
  }

  lemma {:induction false} HandledNext(handle: Handling, ready: bool, before: seq<Delivery>, d: Delivery)
    ensures
      var ds := before + [d];
      && Blocks(handle, ready, ds) == Blocks(handle, ready, before) + handle(Ready(ready, before), d).0
      && OutcomeAt(handle, ready, ds, |before|) == handle(Ready(ready, before), d).1
      && Ready(ready, ds) == (Ready(ready, before) || d.world.mcpUp)
      && forall i | 0 <= i < |before| :: OutcomeAt(handle, ready, ds, i) == OutcomeAt(handle, ready, before, i)
  {
    var ds := before + [d];
    assert ds[..|before|] == before;
    assert forall i | 0 <= i < |before| :: ds[..i] == before[..i];
    if Ready(ready, before) && !ready {
      var i :| 0 <= i < |before| && before[i].world.mcpUp;
      assert ds[i].world.mcpUp;
    }
    assert ds[|before|] == d;
  }

  lemma {:induction false} ReadyConcat(ready: bool, a: seq<Delivery>, b: seq<Delivery>)
    ensures Ready(ready, a + b) == Ready(Ready(ready, a), b)
  {
    if i :| 0 <= i < |a| && a[i].world.mcpUp {
      assert (a + b)[i].world.mcpUp;
    }
    if i :| 0 <= i < |b| && b[i].world.mcpUp {
      assert (a + b)[|a| + i].world.mcpUp;
    }
  }

  lemma {:induction false} OutcomeConcat(handle: Handling, ready: bool, a: seq<Delivery>, b: seq<Delivery>, i: nat)
    requires i < |a| + |b|
    ensures OutcomeAt(handle, ready, a + b, i) ==
      if i < |a| then OutcomeAt(handle, ready, a, i) else OutcomeAt(handle, Ready(ready, a), b, i - |a|)
  {
    if i < |a| {
      assert (a + b)[..i] == a[..i];
    } else {
      assert (a + b)[..i] == a + b[..i - |a|];
      ReadyConcat(ready, a, b[..i - |a|]);
    }
  }

  lemma {:induction false} BlocksConcat(handle: Handling, ready: bool, a: seq<Delivery>, b: seq<Delivery>)
    ensures Blocks(handle, ready, a + b) == Blocks(handle, ready, a) + Blocks(handle, Ready(ready, a), b)
    decreases |b|
  {
    if b == [] {
      assert a + b == a;
    } else {
      var init, last := b[..|b| - 1], b[|b| - 1];
      BlocksConcat(handle, ready, a, init);
      ReadyConcat(ready, a, init);
      assert (a + b)[..|a + b| - 1] == a + init;
    }
  }
}
