/** The browser tracker's session and batch numbering in one tab: what a page
    keeps in its closure, what survives in sessionStorage, and which batches it
    has sent. */
module Tracker {
  import opened Stylesheets

  const MAX_BUFFER_EVENTS := 5_000

  /** A recorded event: its kind, the visitor's clock, and its data. */
  datatype Event = Event(kind: int, timestamp: int, body: Json)

  datatype Batch = Batch(session: string, number: nat, events: seq<Event>)

  /** No two batches share a session and number, and each session's batches are
      numbered in the order they were recorded. */
  ghost predicate Numbered(sent: seq<Batch>) {
    forall i, j :: 0 <= i < j < |sent| && sent[i].session == sent[j].session ==> sent[i].number < sent[j].number
  }

  /** Every number this session has used lies below n. */
  ghost predicate Below(sent: seq<Batch>, session: string, n: nat) {
    forall i :: 0 <= i < |sent| && sent[i].session == session ==> sent[i].number < n
  }

  ghost predicate Unused(sent: seq<Batch>, session: string) {
    forall i :: 0 <= i < |sent| ==> sent[i].session != session
  }

  /** The newest events an overlong buffer keeps: its end, as much as fits. */
  function Newest(buffer: seq<Event>): (kept: seq<Event>)
    ensures |kept| == (if |buffer| < 5_000 then |buffer| else 5_000) && kept == buffer[|buffer| - |kept|..]
  {
    if |buffer| > MAX_BUFFER_EVENTS then buffer[|buffer| - MAX_BUFFER_EVENTS..] else buffer
  }

  function Flushed(sent: seq<Batch>, session: string, next: nat, buffer: seq<Event>): seq<Batch> {
    if buffer == [] then sent else sent + [Batch(session, next, buffer)]
  }

  /** The events of all batches, one after another. */
  function EventsIn(batches: seq<Batch>): seq<Event>
    decreases |batches|
  {
    if batches == [] then [] else EventsIn(batches[..|batches| - 1]) + batches[|batches| - 1].events
  }

  lemma EventsFlushed(sent: seq<Batch>, session: string, next: nat, buffer: seq<Event>)
    ensures EventsIn(sent + [Batch(session, next, buffer)]) == EventsIn(sent) + buffer
  {
    assert (sent + [Batch(session, next, buffer)])[..|sent|] == sent;
  }

  lemma NewestAfter(shipped: seq<Event>, buffer: seq<Event>, event: Event)
    ensures var kept := Newest(buffer + [event]);
            && |kept| == (if |buffer| < 5_000 then |buffer| + 1 else 5_000)
            && kept == (buffer + [event])[|buffer| + 1 - |kept|..]
    ensures |buffer + [event]| > MAX_BUFFER_EVENTS ==> Newest(buffer + [event]) == (buffer + [event])[|buffer + [event]| - MAX_BUFFER_EVENTS..]
    ensures |buffer + [event]| <= MAX_BUFFER_EVENTS ==> Newest(buffer + [event]) == buffer + [event]
    ensures shipped + (buffer + [event]) == shipped + buffer + [event]
  {}

  class Tab {
    // sessionStorage, which outlives each page
    var storedSession: string
    var storedNext: nat
    // the running page's closure
    var loaded: bool
    var session: string
    var next: nat
    var buffer: seq<Event>
    var stopped: bool
    // every batch this tab has handed to the transport
    ghost var sent: seq<Batch>
    // every event recorded, and whether all of them were sent or still wait
    ghost var recorded: seq<Event>
    ghost var complete: bool

    /** The numbering is sound now and leaves room for whatever comes next: a
        flush of this page, or a page load that starts from what is stored. */
    ghost predicate Valid()
      reads this
    {
      && Numbered(sent)
      && (storedSession != "" ==> Below(sent, storedSession, storedNext))
      && (loaded ==> session != "" && session == storedSession && Below(sent, session, next))
      && (complete ==> recorded == EventsIn(sent) + buffer)
    }

    constructor ()
      ensures Valid() && sent == [] && !loaded && recorded == [] && complete
    {
      storedSession, storedNext, loaded := "", 0, false;
      session, next, buffer, stopped := "", 0, [], false;
      sent, recorded, complete := [], [], true;
    }

    /** start(): the page resumes the stored session and number, or begins a new
        session when there is none, it is stale, or it has reached its cap. A
        page that cannot make an id records nothing. */
    method Load(staleOrCapped: bool, id: string)
      requires Valid() && (id != "" ==> Unused(sent, id))
      modifies this
      ensures Valid() && sent == old(sent) && buffer == [] && recorded == old(recorded)
      ensures complete == (old(complete) && old(buffer) == [])
      ensures loaded <==> !(staleOrCapped || old(storedSession) == "") || id != ""
      ensures loaded && !staleOrCapped && old(storedSession) != "" ==> session == old(storedSession) && next == old(storedNext)
      ensures loaded && (staleOrCapped || old(storedSession) == "") ==> session == id && next == 0
    {
      complete := complete && buffer == [];
      loaded, buffer, stopped := false, [], false;
      session, next := storedSession, storedNext;
      if storedSession == "" || staleOrCapped {
        session := id;
        if id == "" {
          return;
        }
        next := 0;
      }
      loaded := true;
      storedSession := session;
    }

    /** An event joins the buffer; past 5,000 the oldest goes. */
    method Emit(event: Event)
      requires Valid() && loaded
      modifies this`buffer, this`recorded, this`complete
      ensures Valid() && recorded == old(recorded) + [event]
      ensures buffer == Newest(old(buffer) + [event])
      ensures |buffer| == (if |old(buffer)| < 5_000 then |old(buffer)| + 1 else 5_000)
      ensures buffer == (old(buffer) + [event])[|old(buffer)| + 1 - |buffer|..]
      ensures complete == (old(complete) && |old(buffer)| < 5_000)
    {
      hide EventsIn, Numbered, Below, Newest;
      NewestAfter(EventsIn(sent), buffer, event);
      ghost var was, kept := buffer, Newest(buffer + [event]);
      recorded := recorded + [event];
      complete := complete && |buffer| < MAX_BUFFER_EVENTS;
      buffer := buffer + [event];
      if |buffer| > MAX_BUFFER_EVENTS {
        buffer := buffer[|buffer| - MAX_BUFFER_EVENTS..];
      }
      assert buffer == kept;
    }

    /** The buffer goes out as one batch under the next number. */
    method Flush()
      requires Valid() && loaded
      modifies this`buffer, this`next, this`storedNext, this`sent
      ensures Valid() && buffer == []
      ensures sent == Flushed(old(sent), session, old(next), old(buffer))
      ensures sent == if old(buffer) == [] then old(sent) else old(sent) + [Batch(session, old(next), old(buffer))]
      ensures old(buffer) == [] ==> storedNext == old(storedNext) && next == old(next)
      ensures old(buffer) != [] ==> storedNext == next == old(next) + 1
    {
      if buffer == [] {
        return;
      }
      hide EventsIn;
      EventsFlushed(sent, session, next, buffer);
      var events := buffer;
      buffer := [];
      sent := sent + [Batch(session, next, events)];
      next := next + 1;
      storedNext := next;
    }

    method EndSession()
      requires Valid() && loaded
      modifies this
      ensures recorded == old(recorded) && complete == old(complete)
      ensures Valid() && loaded && session == old(session) && stopped
      ensures sent == if old(stopped) then old(sent) else Flushed(old(sent), old(session), old(next), old(buffer))
      ensures buffer == if old(stopped) then old(buffer) else []
    {
      if stopped {
        return;
      }
      stopped := true;
      Flush();
    }

    /** A new visit in the same page. Only the id is stored: the stored number
        stays where the last flush left it until this session's first flush. */
    method NewSession(finalize: bool, id: string)
      requires Valid() && loaded && (id != "" ==> Unused(sent, id) && id != session)
      modifies this
      ensures recorded == old(recorded) && complete == old(complete)
      ensures Valid() && loaded
      ensures sent == if finalize && !old(stopped) then Flushed(old(sent), old(session), old(next), old(buffer)) else old(sent)
      ensures buffer == if finalize && !old(stopped) then [] else old(buffer)
      ensures id != "" ==> session == id && next == 0 && !stopped
      ensures id == "" ==> session == old(session) && stopped
    {
      if finalize && !stopped {
        Flush();
      }
      if id == "" {
        stopped := true;
        return;
      }
      stopped, session, next := false, id, 0;
      storedSession := session;
    }

    /** pagehide: ship what is buffered; the page is gone afterwards. */
    method Unload()
      requires Valid() && loaded
      modifies this
      ensures recorded == old(recorded) && complete == old(complete)
      ensures Valid() && !loaded && sent == Flushed(old(sent), old(session), old(next), old(buffer))
    {
      Flush();
      loaded := false;
    }
  }

  // ---- A page the browser brings back ----

  function Copies(session: string, n: nat, payloads: seq<seq<Event>>): (batches: seq<Batch>)
    ensures |batches| == |payloads|
    ensures forall i :: 0 <= i < |payloads| ==> batches[i] == Batch(session, n + i, payloads[i])
  {
    seq(|payloads|, i requires 0 <= i < |payloads| => Batch(session, n + i, payloads[i]))
  }

  /** A page frozen at number n comes back after a later page resumed the same
      session at n and flushed `later`; its next batch takes a number already in
      use exactly when the later page flushed anything. Such a restored page is
      outside the steps of Tab above. */
  lemma RestoredPageCollides(sent: seq<Batch>, session: string, n: nat, later: seq<seq<Event>>, tail: seq<Event>)
    requires Numbered(sent) && Below(sent, session, n)
    ensures Numbered(sent + Copies(session, n, later))
    ensures Numbered(sent + Copies(session, n, later) + [Batch(session, n, tail)]) <==> later == []
  {
    var resumed := sent + Copies(session, n, later);
    var both := resumed + [Batch(session, n, tail)];
    if later != [] {
      assert both[|sent|] == Batch(session, n, later[0]);
      assert both[|both| - 1] == Batch(session, n, tail);
    } else {
      assert resumed == sent;
    }
  }

  // ---- Two holders of one number ----

  /** A flush by one of two pages that both resumed a session: a duplicated tab and
      its original, or a restored page and the one that took over. */
  datatype HolderFlush = HolderFlush(first: bool, events: seq<Event>)

  /** Each holder counts on by itself, in any order of their flushes. */
  function FlushesOf(session: string, a: nat, b: nat, flushes: seq<HolderFlush>): (batches: seq<Batch>)
    ensures |batches| == |flushes|
    decreases |flushes|
  {
    if flushes == [] then []
    else if flushes[0].first then
      [Batch(session, a, flushes[0].events)] + FlushesOf(session, a + 1, b, flushes[1..])
    else
      [Batch(session, b, flushes[0].events)] + FlushesOf(session, a, b + 1, flushes[1..])
  }

  ghost predicate CountsFrom(batches: seq<Batch>, session: string, n: nat) {
    forall i :: 0 <= i < |batches| ==> batches[i].session == session && batches[i].number == n + i
  }

  /** While only one holder flushes, its numbers go up one by one. */
  lemma {:induction false} OneHolderCounts(session: string, a: nat, b: nat, flushes: seq<HolderFlush>, first: bool)
    requires forall i :: 0 <= i < |flushes| ==> flushes[i].first == first
    ensures CountsFrom(FlushesOf(session, a, b, flushes), session, if first then a else b)
    decreases |flushes|
  {
    if flushes != [] {
      var n, batches := if first then a else b, FlushesOf(session, a, b, flushes);
      OneHolderCounts(session, if first then a + 1 else a, if first then b else b + 1, flushes[1..], first);
      assert CountsFrom(batches[1..], session, n + 1);
      forall i | 0 <= i < |batches| ensures batches[i].session == session && batches[i].number == n + i {
        if i > 0 { assert batches[i] == batches[1..][i - 1]; }
      }
    }
  }

  /** A holder's first flush takes the number it started from. */
  lemma {:induction false} FirstFlushNumber(session: string, a: nat, b: nat, flushes: seq<HolderFlush>, i: nat)
    requires i < |flushes| && forall j :: 0 <= j < i ==> flushes[j].first != flushes[i].first
    ensures FlushesOf(session, a, b, flushes)[i] == Batch(session, if flushes[i].first then a else b, flushes[i].events)
    decreases |flushes|
  {
    if i > 0 {
      if flushes[0].first { FirstFlushNumber(session, a + 1, b, flushes[1..], i - 1); } else { FirstFlushNumber(session, a, b + 1, flushes[1..], i - 1); }
    }
  }

  /** Two holders that start from one number keep the numbering sound exactly when
      only one of them ever flushes. */
  lemma TwoHoldersCollide(sent: seq<Batch>, session: string, n: nat, flushes: seq<HolderFlush>)
    requires Numbered(sent) && Below(sent, session, n)
    ensures Numbered(sent + FlushesOf(session, n, n, flushes)) <==>
              forall i, j :: 0 <= i < |flushes| && 0 <= j < |flushes| ==> flushes[i].first == flushes[j].first
  {
    var batches := FlushesOf(session, n, n, flushes);
    if j: nat :| j < |flushes| && flushes[j].first != flushes[0].first {
      var i := FirstOther(flushes, j);
      FirstFlushNumber(session, n, n, flushes, 0);
      FirstFlushNumber(session, n, n, flushes, i);
      var all := sent + batches;
      assert all[|sent|] == batches[0] && all[|sent| + i] == batches[i];
    } else if flushes != [] {
      OneHolderCounts(session, n, n, flushes, flushes[0].first);
      assert forall i, j :: 0 <= i < |flushes| && 0 <= j < |flushes| ==> flushes[i].first == flushes[0].first == flushes[j].first;
    } else {
      assert sent + batches == sent;
    }
  }

  lemma FirstOther(flushes: seq<HolderFlush>, j: nat) returns (i: nat)
    requires j < |flushes| && flushes[j].first != flushes[0].first
    ensures i < |flushes| && flushes[i].first != flushes[0].first
    ensures forall k :: 0 <= k < i ==> flushes[k].first != flushes[i].first
  {
    i := 0;
    while flushes[i].first == flushes[0].first
      invariant i <= j && forall k :: 0 <= k < i ==> flushes[k].first == flushes[0].first
      decreases j - i
    {
      i := i + 1;
    }
  }
}
