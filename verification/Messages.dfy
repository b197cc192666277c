/** Network messages, and counting the messages of queues under a weight. */
module Messages {
  import opened Sums

  datatype Message = Message(target: nat, source: nat, number: nat)

  /** The empty message, which tells a consumer to stop. */
  const STOP := Message(0, 0, 0)

  /** Targets are 16 bits wide. */
  function Uint16(x: nat): (target: nat)
    ensures target <= 65535 && (x - target) % 65536 == 0
  {
    x % 0x1_0000
  }

  function Loads(qs: seq<seq<Message>>, w: Message -> nat): nat {
    if qs == [] then 0 else Total(qs[0], w) + Loads(qs[1..], w)
  }

  lemma {:induction false} LoadsUpdate(qs: seq<seq<Message>>, i: nat, q: seq<Message>, w: Message -> nat)
    requires i < |qs|
    ensures Loads(qs[i := q], w) + Total(qs[i], w) == Loads(qs, w) + Total(q, w)
  {
    if i == 0 {
      assert qs[i := q][1..] == qs[1..];
    } else {
      assert qs[i := q][1..] == qs[1..][i - 1 := q];
      LoadsUpdate(qs[1..], i - 1, q, w);
    }
  }

  /** Appending to one of several queues. */
  lemma LoadsAppend(qs: seq<seq<Message>>, i: nat, m: Message, w: Message -> nat)
    requires i < |qs|
    ensures Loads(qs[i := qs[i] + [m]], w) == Loads(qs, w) + w(m)
  {
    LoadsUpdate(qs, i, qs[i] + [m], w);
    TotalAppend(qs[i], m, w);
  }

  /** Taking the first message of one of several queues. */
  lemma LoadsTake(qs: seq<seq<Message>>, i: nat, w: Message -> nat)
    requires i < |qs| && qs[i] != []
    ensures Loads(qs, w) == Loads(qs[i := qs[i][1..]], w) + w(qs[i][0])
  {
    LoadsUpdate(qs, i, qs[i][1..], w);
  }

  lemma {:induction false} LoadsOfEmpty(qs: seq<seq<Message>>, w: Message -> nat)
    requires forall i :: 0 <= i < |qs| ==> Total(qs[i], w) == 0
    ensures Loads(qs, w) == 0
  {
    if qs != [] {
      LoadsOfEmpty(qs[1..], w);
    }
  }

  // ---- The weights in use ----

  /** Counts data messages. */
  function IsData(m: Message): nat {
    if m == STOP then 0 else 1
  }

  /** Counts stop messages. */
  function IsStop(m: Message): nat {
    if m == STOP then 1 else 0
  }

  /** Counts the data messages with a given number. */
  function HasNumber(k: nat): Message -> nat {
    (m: Message) => if m != STOP && m.number == k then 1 else 0
  }

  lemma {:induction false} LoadIsSize(q: seq<Message>)
    ensures |q| == Total(q, IsData) + Total(q, IsStop)
  {
    if q != [] {
      LoadIsSize(q[1..]);
    }
  }

  lemma {:induction false} NoStops(q: seq<Message>)
    ensures Total(q, IsStop) == 0 <==> STOP !in q
  {
    if q != [] {
      NoStops(q[1..]);
    }
  }

  /** Stop messages weigh nothing under a weight of data messages. */
  lemma {:induction false} OnlyStops(q: seq<Message>, w: Message -> nat)
    requires w(STOP) == 0 && forall m :: m in q ==> m == STOP
    ensures Total(q, w) == 0
  {
    if q != [] {
      assert q[0] in q && forall m :: m in q[1..] ==> m in q;
      OnlyStops(q[1..], w);
    }
  }

  function TotalSize(qs: seq<seq<Message>>): nat {
    if qs == [] then 0 else |qs[0]| + TotalSize(qs[1..])
  }

  lemma {:induction false} LoadsAreSize(qs: seq<seq<Message>>)
    requires forall i :: 0 <= i < |qs| ==> STOP !in qs[i]
    ensures TotalSize(qs) == Loads(qs, IsData)
  {
    if qs != [] {
      NoStops(qs[0]);
      LoadIsSize(qs[0]);
      LoadsAreSize(qs[1..]);
    }
  }

  lemma TailMembers(q: seq<Message>)
    requires q != []
    ensures q[0] in q && forall m :: m in q[1..] ==> m in q
  {
  }

  /** Counts the consumers that have not stopped. */
  function Unfinished(done: bool): nat {
    if done then 0 else 1
  }

  lemma {:induction false} AllEmpty(qs: seq<seq<Message>>)
    requires forall i :: 0 <= i < |qs| ==> qs[i] == []
    ensures TotalSize(qs) == 0
  {
    if qs != [] {
      AllEmpty(qs[1..]);
    }
  }

  lemma {:induction false} TotalSizeUpdate(qs: seq<seq<Message>>, i: nat, q: seq<Message>)
    requires i < |qs|
    ensures TotalSize(qs[i := q]) + |qs[i]| == TotalSize(qs) + |q|
  {
    if i == 0 {
      assert qs[i := q][1..] == qs[1..];
    } else {
      assert qs[i := q][1..] == qs[1..][i - 1 := q];
      TotalSizeUpdate(qs[1..], i - 1, q);
    }
  }

  /** Sequences that only grow and keep their total size stay the same. */
  lemma {:induction false} SameSizes(a: seq<seq<Message>>, b: seq<seq<Message>>)
    requires |a| == |b| && forall i :: 0 <= i < |a| ==> a[i] <= b[i]
    ensures TotalSize(a) <= TotalSize(b)
    ensures TotalSize(a) == TotalSize(b) ==> a == b
  {
    if a != [] {
      SameSizes(a[1..], b[1..]);
      assert a == [a[0]] + a[1..] && b == [b[0]] + b[1..];
      assert |a[0]| == |b[0]| ==> a[0] == b[0];
    }
  }

  lemma {:induction false} FindNumber(q: seq<Message>, k: nat) returns (m: Message)
    requires Total(q, HasNumber(k)) > 0
    ensures m in q && m != STOP && m.number == k
  {
    if HasNumber(k)(q[0]) > 0 {
      m := q[0];
    } else {
      m := FindNumber(q[1..], k);
    }
  }
}
