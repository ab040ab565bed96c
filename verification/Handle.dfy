/** The handle a page gets before the tracker is ready: calls wait in a queue, and
    promises wait for an answer, until the tracker starts or gives up. */
module Handle {
  import opened Rows

  /** One call on the handle. */
  datatype Call = Call(name: string, argument: string)

  datatype Answer = FromRuntime | Refused

  /** What the tracker gets from the first n queued calls: each, followed by the calls
      its own action makes on the handle, which no longer wait. */
  function Drained(queue: seq<Call>, nested: seq<seq<Call>>, n: nat): seq<Call>
    requires n <= |queue| == |nested|
  {
    if n == 0 then [] else Drained(queue, nested, n - 1) + [queue[n - 1]] + nested[n - 1]
  }

  function Flat(nested: seq<seq<Call>>, n: nat): seq<Call>
    requires n <= |nested|
  {
    if n == 0 then [] else Flat(nested, n - 1) + nested[n - 1]
  }

  /** What an action can do to the handle while it runs. */
  datatype Own = Makes(call: Call) | Asks(p: nat) | Stops

  function CallsIn(own: seq<Own>): seq<Call> {
    if own == [] then []
    else CallsIn(own[..|own| - 1]) + match own[|own| - 1] case Makes(call) => [call] case _ => []
  }

  /** The calls each action makes. */
  function Calls(nested: seq<seq<Own>>): (calls: seq<seq<Call>>)
    ensures |calls| == |nested| && forall i :: 0 <= i < |calls| ==> calls[i] == CallsIn(nested[i])
  {
    seq(|nested|, i requires 0 <= i < |nested| => CallsIn(nested[i]))
  }

  /** The promises the first n actions ask for. */
  function AsksIn(nested: seq<seq<Own>>, n: nat): set<nat>
    requires n <= |nested|
  {
    set i, p | 0 <= i < n && p in AskedBy(nested[i]) :: p
  }

  function AskedBy(own: seq<Own>): set<nat> {
    set i | 0 <= i < |own| && own[i].Asks? :: own[i].p
  }

  /** No promise is asked for twice. */
  ghost predicate AsksNew(own: seq<Own>, asked: set<nat>) {
    && AskedBy(own) !! asked
    && forall i, j :: 0 <= i < j < |own| && own[i].Asks? && own[j].Asks? ==> own[i].p != own[j].p
  }

  ghost predicate AllAsksNew(nested: seq<seq<Own>>, asked: set<nat>) {
    && (forall i :: 0 <= i < |nested| ==> AsksNew(nested[i], asked))
    && forall i, j :: 0 <= i < j < |nested| ==> AskedBy(nested[i]) !! AskedBy(nested[j])
  }

  lemma AskedByOne(own: seq<Own>, i: nat, asked: set<nat>)
    requires i < |own| && AsksNew(own, asked)
    ensures CallsIn(own[..i + 1]) == CallsIn(own[..i]) + match own[i] case Makes(call) => [call] case _ => []
    ensures AskedBy(own[..i + 1]) == AskedBy(own[..i]) + match own[i] case Asks(p) => {p} case _ => {}
    ensures own[i].Asks? ==> own[i].p !in asked + AskedBy(own[..i])
  {
    var upTo := own[..i + 1];
    assert upTo[..i] == own[..i];
    forall p | p in AskedBy(upTo) ensures p in AskedBy(own[..i]) || own[i] == Asks(p) {
      var k :| 0 <= k < |upTo| && upTo[k] == Asks(p);
      assert k < i ==> own[..i][k] == Asks(p);
    }
    forall p | p in AskedBy(own[..i]) ensures p in AskedBy(upTo) {
      var k :| 0 <= k < i && own[..i][k] == Asks(p);
      assert upTo[k] == Asks(p);
    }
    if own[i].Asks? {
      assert upTo[i] == own[i];
      assert own[i].p in AskedBy(upTo) && own[i].p in AskedBy(own);
    }
  }

  lemma AsksInOne(nested: seq<seq<Own>>, n: nat, asked: set<nat>)
    requires n < |nested| && AllAsksNew(nested, asked)
    ensures AsksIn(nested, n + 1) == AsksIn(nested, n) + AskedBy(nested[n])
    ensures AsksNew(nested[n], asked + AsksIn(nested, n))
  {}

  /** Every call made was received, still waits or is lost, each once. */
  ghost predicate Conserved(made: seq<Call>, received: seq<Call>, pending: seq<Call>, lost: seq<Call>) {
    multiset(made) == multiset(received) + multiset(pending) + multiset(lost)
  }

  lemma {:induction false} DrainedKeeps(queue: seq<Call>, nested: seq<seq<Call>>, n: nat)
    requires n <= |queue| == |nested|
    ensures multiset(Drained(queue, nested, n)) == multiset(queue[..n]) + multiset(Flat(nested, n))
    decreases n
  {
    hide Drained, Flat;
    if n == 0 {
      DrainedNone(queue, nested);
    } else {
      DrainedKeeps(queue, nested, n - 1);
      DrainedOne(queue, nested, n);
      assert queue[..n] == queue[..n - 1] + [queue[n - 1]];
      AddUp(Drained(queue, nested, n - 1), [queue[n - 1]], nested[n - 1], queue[..n - 1], Flat(nested, n - 1));
    }
  }

  lemma DrainedNone(queue: seq<Call>, nested: seq<seq<Call>>)
    requires |queue| == |nested|
    ensures Drained(queue, nested, 0) == queue[..0] == Flat(nested, 0) == []
  {}

  lemma AddUp(all: seq<Call>, x: seq<Call>, y: seq<Call>, first: seq<Call>, second: seq<Call>)
    requires multiset(all) == multiset(first) + multiset(second)
    ensures multiset(all + x + y) == multiset(first + x) + multiset(second + y)
  {
    assert multiset(all + x + y) == multiset(all) + multiset(x) + multiset(y);
  }

  lemma DrainedOne(queue: seq<Call>, nested: seq<seq<Call>>, n: nat)
    requires 0 < n <= |queue| == |nested|
    ensures Drained(queue, nested, n) == Drained(queue, nested, n - 1) + [queue[n - 1]] + nested[n - 1]
    ensures Flat(nested, n) == Flat(nested, n - 1) + nested[n - 1]
  {}

  /** When no action calls back, draining keeps the order too. */
  lemma {:induction false} DrainedInOrder(queue: seq<Call>, nested: seq<seq<Call>>, n: nat)
    requires n <= |queue| == |nested| && forall i :: 0 <= i < n ==> nested[i] == []
    ensures Drained(queue, nested, n) == queue[..n] && Flat(nested, n) == []
    decreases n
  {
    if n > 0 { DrainedInOrder(queue, nested, n - 1); }
  }

  /** Draining and dropping the rest keeps every call. */
  lemma DrainConserves(queue: seq<Call>, nested: seq<seq<Call>>, n: nat)
    requires n <= |queue| == |nested|
    ensures Conserved(queue + Flat(nested, n), Drained(queue, nested, n), [], queue[n..])
  {
    DrainedKeeps(queue, nested, n);
    hide Drained, Flat;
    var f := Flat(nested, n);
    assert queue == queue[..n] + queue[n..];
    assert multiset(queue[..n] + queue[n..] + f) == multiset(queue[..n]) + multiset(queue[n..]) + multiset(f);
  }

  lemma CallConserves(made: seq<Call>, received: seq<Call>, pending: seq<Call>, lost: seq<Call>, call: Call)
    requires Conserved(made, received, pending, lost)
    ensures Conserved(made + [call], received + [call], pending, lost)
    ensures Conserved(made + [call], received, pending + [call], lost)
    ensures Conserved(made + [call], received, pending, lost + [call])
  {
    assert multiset(made + [call]) == multiset(made) + multiset([call]);
    assert multiset(received + [call]) == multiset(received) + multiset([call]);
    assert multiset(pending + [call]) == multiset(pending) + multiset([call]);
    assert multiset(lost + [call]) == multiset(lost) + multiset([call]);
  }

  lemma DropConserves(made: seq<Call>, received: seq<Call>, pending: seq<Call>, lost: seq<Call>)
    requires Conserved(made, received, pending, lost)
    ensures Conserved(made, received, [], lost + pending)
  {
    assert multiset(lost + pending) == multiset(lost) + multiset(pending);
  }

  class QueuedHandle {
    var active: bool
    var failed: bool
    var stopped: bool              // the runtime was told to stop
    var pending: seq<Call>
    var waiting: seq<nat>          // promises not answered yet, in the order asked
    // every call made, what the tracker got of them, those dropped, and every
    // promise with its answer
    ghost var made: seq<Call>
    ghost var received: seq<Call>
    ghost var lost: seq<Call>
    ghost var asked: set<nat>
    ghost var answers: map<nat, Answer>

    /** Every call made was received, still waits or is lost, once; a promise waits
        or has exactly one answer. */
    ghost predicate Valid()
      reads this
    {
      && Conserved(made, received, pending, lost)
      && (active || failed ==> pending == [])
      && (failed ==> waiting == [])
      && (!active && !failed ==> made == pending && lost == [])
      && (!active ==> received == [] && forall p :: p in answers ==> answers[p] == Refused)
      && PromisesOk(asked, waiting, answers)
    }

    constructor ()
      ensures Valid() && made == [] && received == [] && asked == {} && !active && !failed
    {
      active, failed, stopped, pending, waiting := false, false, false, [], [];
      made, received, lost, asked, answers := [], [], [], {}, map[];
    }

    /** dispatch: now, later or never. */
    method Dispatch(call: Call)
      requires Valid()
      modifies this`pending, this`made, this`received, this`lost
      ensures Valid() && made == old(made) + [call]
      ensures received == if active then old(received) + [call] else old(received)
      ensures pending == if !active && !failed then old(pending) + [call] else old(pending)
      ensures lost == if !active && failed then old(lost) + [call] else old(lost)
    {
      hide Conserved, PromisesOk;
      CallConserves(made, received, pending, lost, call);
      ghost var more := made + [call];
      if active {
        made, received := more, received + [call];
      } else if !failed {
        made, pending := more, pending + [call];
      } else {
        made, lost := more, lost + [call];
      }
    }

    /** claimReplay and expand: a promise for an answer. */
    method Ask(p: nat)
      requires Valid() && p !in asked
      modifies this`waiting, this`asked, this`answers
      ensures Valid() && asked == old(asked) + {p}
      ensures p in answers <==> active || failed
      ensures p in answers ==> answers[p] == if active then FromRuntime else Refused
      ensures forall q :: q in old(answers) ==> q in answers && answers[q] == old(answers)[q]
    {
      asked := asked + {p};
      if active {
        answers := answers[p := FromRuntime];
      } else if failed {
        answers := answers[p := Refused];
      } else {
        waiting := waiting + [p];
      }
    }

    /** Answer every waiting promise the same way. */
    method Settle(a: Answer)
      requires PromisesOk(asked, waiting, answers)
      modifies this`waiting, this`answers
      ensures waiting == [] && PromisesOk(asked, waiting, answers)
      ensures forall q :: q in answers <==> q in old(answers) || q in old(waiting)
      ensures forall q :: q in old(answers) ==> answers[q] == old(answers)[q]
      ensures forall q :: q in old(waiting) ==> answers[q] == a
    {
      ghost var all := waiting;
      ghost var n := 0;
      while waiting != []
        invariant n <= |all| && waiting == all[n..]
        invariant forall q :: q in answers <==> q in old(answers) || q in all[..n]
        invariant forall q :: q in old(answers) ==> answers[q] == old(answers)[q]
        invariant forall q :: q in all[..n] ==> answers[q] == a
        decreases |waiting|
      {
        assert all[..n + 1] == all[..n] + [waiting[0]];
        answers := answers[waiting[0] := a];
        waiting := waiting[1..];
        n := n + 1;
      }
      assert all[..n] == all;
    }

    /** What a running action itself does: its calls and promises go straight to the
        tracker. */
    method React(own: seq<Own>)
      requires active && PromisesOk(asked, waiting, answers) && AsksNew(own, asked)
      modifies this`received, this`made, this`asked, this`answers, this`stopped
      ensures received == old(received) + CallsIn(own) && made == old(made) + CallsIn(own)
      ensures PromisesOk(asked, waiting, answers) && asked == old(asked) + AskedBy(own)
      ensures forall p :: p in AskedBy(own) ==> p in answers && answers[p] == FromRuntime
      ensures forall q :: q in old(answers) ==> q in answers && answers[q] == old(answers)[q]
      ensures stopped <==> old(stopped) || Stops in own
    {
      hide CallsIn, AskedBy, AsksNew, PromisesOk;
      NothingYet(own);
      var i := 0;
      while i < |own|
        invariant 0 <= i <= |own|
        invariant received == old(received) + CallsIn(own[..i]) && made == old(made) + CallsIn(own[..i])
        invariant PromisesOk(asked, waiting, answers) && asked == old(asked) + AskedBy(own[..i])
        invariant forall p :: p in AskedBy(own[..i]) ==> p in answers && answers[p] == FromRuntime
        invariant forall q :: q in old(answers) ==> q in answers && answers[q] == old(answers)[q]
        invariant stopped <==> old(stopped) || Stops in own[..i]
      {
        AskedByOne(own, i, old(asked));
        assert own[..i + 1] == own[..i] + [own[i]];
        match own[i] {
          case Makes(call) => received, made := received + [call], made + [call];
          case Asks(p) =>
            AnswerAtOnce(asked, waiting, answers, p);
            asked, answers := asked + {p}, answers[p := FromRuntime];
          case Stops => stopped := true;
        }
        i := i + 1;
      }
      assert own[..i] == own;
    }

    /** The loop over the queue, as far as it gets. */
    method Drain(queue: seq<Call>, nested: seq<seq<Own>>, throws: Option<nat>) returns (n: nat, threw: bool)
      requires |nested| == |queue| && received == [] && active && PromisesOk(asked, waiting, answers) && AllAsksNew(nested, asked)
      modifies this`received, this`made, this`asked, this`answers, this`stopped
      ensures threw <==> throws.Some? && throws.value < |queue|
      ensures n == if threw then throws.value + 1 else |queue|
      ensures received == Drained(queue, Calls(nested), n) && made == old(made) + Flat(Calls(nested), n)
      ensures PromisesOk(asked, waiting, answers) && asked == old(asked) + AsksIn(nested, n)
      ensures forall p :: p in AsksIn(nested, n) ==> p in answers && answers[p] == FromRuntime
      ensures forall q :: q in old(answers) ==> q in answers && answers[q] == old(answers)[q]
      ensures stopped <==> old(stopped) || exists i :: 0 <= i < n && Stops in nested[i]
    {
      hide Drained, Flat, PromisesOk, AsksIn, AllAsksNew, AsksNew, CallsIn, AskedBy;
      n, threw := 0, false;
      DrainedNone(queue, Calls(nested));
      NoAsksYet(nested);
      while n < |queue| && !threw
        invariant 0 <= n <= |queue|
        invariant received == Drained(queue, Calls(nested), n) && made == old(made) + Flat(Calls(nested), n)
        invariant PromisesOk(asked, waiting, answers) && asked == old(asked) + AsksIn(nested, n)
        invariant forall p :: p in AsksIn(nested, n) ==> p in answers && answers[p] == FromRuntime
        invariant forall q :: q in old(answers) ==> q in answers && answers[q] == old(answers)[q]
        invariant stopped <==> old(stopped) || exists i :: 0 <= i < n && Stops in nested[i]
        invariant threw <==> throws.Some? && throws.value < n
        invariant threw ==> n == throws.value + 1
      {
        DrainedOne(queue, Calls(nested), n + 1);
        AsksInOne(nested, n, old(asked));
        received := received + [queue[n]];
        React(nested[n]);
        threw := throws == Some(n);
        n := n + 1;
      }
    }

    /** activate. `nested[i]` is what the i-th queued action itself does to the handle,
        and `throws` the action that throws, if one does: the rest of the queue is
        then lost and the promises wait on. A handle given up on stops the runtime
        instead. */
    method Activate(nested: seq<seq<Own>>, throws: Option<nat>) returns (threw: bool)
      requires Valid() && !active && |nested| == |pending| && AllAsksNew(nested, asked)
      modifies this
      ensures Valid() && failed == old(failed)
      ensures threw <==> !failed && throws.Some? && throws.value < |old(pending)|
      ensures failed ==>
                && stopped && !active && received == [] && lost == old(lost) && made == old(made) && asked == old(asked)
      ensures !failed ==>
                var n := if threw then throws.value + 1 else |old(pending)|;
                && active && n <= |old(pending)| && received == Drained(old(pending), Calls(nested), n)
                && made == old(made) + Flat(Calls(nested), n) && lost == old(lost) + old(pending)[n..]
                && asked == old(asked) + AsksIn(nested, n)
                && (forall p :: p in AsksIn(nested, n) ==> p in answers && answers[p] == FromRuntime)
                && (stopped <==> old(stopped) || exists i :: 0 <= i < n && Stops in nested[i])
      ensures !failed && !threw && (forall i :: 0 <= i < |nested| ==> Calls(nested)[i] == []) ==> received == made
      ensures threw ==> waiting == old(waiting)
      ensures !threw && !failed ==> waiting == [] && forall q :: q in old(waiting) ==> q in answers && answers[q] == FromRuntime
      ensures forall q :: q in old(answers) ==> q in answers && answers[q] == old(answers)[q]
    {
      hide Conserved, PromisesOk, Drained, Flat, AsksIn, AllAsksNew;
      threw := false;
      if failed {
        stopped := true;
        Settle(Refused);
        return;
      }
      active := true;
      var queue := pending;
      pending := [];
      var n;
      n, threw := Drain(queue, nested, throws);
      DrainConserves(queue, Calls(nested), n);
      if forall j :: 0 <= j < |nested| ==> Calls(nested)[j] == [] { DrainedInOrder(queue, Calls(nested), n); }
      lost := queue[n..];
      if threw {
        return;
      }
      Settle(FromRuntime);
    }

    /** fail, and stop before the tracker runs: nothing waits any longer. After the
        tracker runs, fail only refuses the promises an activation left waiting. */
    method Fail()
      requires Valid()
      modifies this
      ensures Valid() && failed && active == old(active) && asked == old(asked) && made == old(made) && received == old(received)
      ensures pending == [] && waiting == [] && lost == old(lost) + old(pending)
      ensures forall q :: q in old(waiting) ==> q in answers && answers[q] == Refused
      ensures forall q :: q in old(answers) ==> q in answers && answers[q] == old(answers)[q]
    {
      hide Conserved, PromisesOk;
      DropConserves(made, received, pending, lost);
      failed := true;
      lost := lost + pending;
      pending := [];
      Settle(Refused);
    }

    /** stop: the runtime's when there is one. */
    method Stop()
      requires Valid()
      modifies this
      ensures Valid()
      ensures if active then stopped && failed == old(failed) && received == old(received) && waiting == old(waiting)
              else failed && pending == [] && forall q :: q in asked ==> q in answers && answers[q] == Refused
    {
      if active {
        stopped := true;
        return;
      }
      Fail();
    }

    /** start() with its catch: however it goes, no promise is left waiting. */
    method Start(nested: seq<seq<Own>>, throws: Option<nat>)
      requires Valid() && !active && |nested| == |pending| && AllAsksNew(nested, asked)
      modifies this
      ensures Valid() && waiting == [] && asked >= old(asked) && forall q :: q in asked ==> q in answers
    {
      hide Conserved, Drained, Flat, AsksIn, AllAsksNew;
      var threw := Activate(nested, throws);
      if threw {
        Fail();
      }
    }
  }

  /** Promises asked for, those that wait, once each, and those answered. */
  ghost predicate PromisesOk(asked: set<nat>, waiting: seq<nat>, answers: map<nat, Answer>) {
    && (forall p :: p in asked <==> p in waiting || p in answers)
    && (forall i :: 0 <= i < |waiting| ==> waiting[i] !in answers)
    && (forall i, j :: 0 <= i < j < |waiting| ==> waiting[i] != waiting[j])
  }

  lemma AnswerAtOnce(asked: set<nat>, waiting: seq<nat>, answers: map<nat, Answer>, p: nat)
    requires PromisesOk(asked, waiting, answers) && p !in asked
    ensures PromisesOk(asked + {p}, waiting, answers[p := FromRuntime]) && p !in answers
  {
    forall i | 0 <= i < |waiting| ensures waiting[i] != p { assert waiting[i] in waiting; }
  }

  lemma NothingYet(own: seq<Own>)
    ensures CallsIn(own[..0]) == [] && AskedBy(own[..0]) == {}
  {}

  lemma NoAsksYet(nested: seq<seq<Own>>)
    ensures AsksIn(nested, 0) == {}
  {}
}
