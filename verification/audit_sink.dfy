/** The audit sink: events wait in a bounded buffer and leave in batches, grouped by subject. */
module AuditSink {
  import opened Sequences

  const MaxItems := 256
  const MaxSize := 524288
  const MaxPending := 50000

  datatype Item = Item(subject: string, body: string)

  datatype Message = Message(subject: string, items: seq<Item>)

  function SizeOf(items: seq<Item>): nat {
    if items == [] then 0 else SizeOf(items[..|items| - 1]) + |items[|items| - 1].body| + 2
  }

  /** The items of one subject, in order. */
  function Of(items: seq<Item>, subject: string): seq<Item> {
    if items == [] then []
    else
      var last := items[|items| - 1];
      Of(items[..|items| - 1], subject) + if last.subject == subject then [last] else []
  }

  /** Some item of subject a comes before any of subject b. */
  ghost predicate AppearsBefore(items: seq<Item>, a: string, b: string) {
    exists k :: 0 <= k < |items| && items[k].subject == a && forall m :: 0 <= m <= k ==> items[m].subject != b
  }

  lemma {:induction false} OfMembers(items: seq<Item>, subject: string)
    ensures Of(items, subject) != [] <==> exists k :: 0 <= k < |items| && items[k].subject == subject
  {
    if items != [] {
      var init := items[..|items| - 1];
      OfMembers(init, subject);
      assert forall k :: 0 <= k < |init| ==> init[k] == items[k];
    }
  }

  lemma NewComesLater(items: seq<Item>, n: nat, a: string)
    requires n < |items| && Of(items[..n], a) != [] && Of(items[..n], items[n].subject) == []
    ensures AppearsBefore(items, a, items[n].subject)
  {
    OfMembers(items[..n], a);
    OfMembers(items[..n], items[n].subject);
    var k :| 0 <= k < n && items[..n][k].subject == a;
    assert forall m :: 0 <= m <= k ==> items[m] == items[..n][m];
    assert items[k].subject == a;
  }

  /** The subjects stand in the order of their first items. */
  ghost predicate InFirstOrder(items: seq<Item>, order: seq<string>) {
    forall i, j :: 0 <= i < j < |order| ==> AppearsBefore(items, order[i], order[j])
  }

  lemma NewComesLast(items: seq<Item>, n: nat, order: seq<string>)
    requires n < |items| && InFirstOrder(items, order)
    requires Of(items[..n], items[n].subject) == [] && forall s :: s in order ==> Of(items[..n], s) != []
    ensures InFirstOrder(items, order + [items[n].subject])
  {
    forall i | 0 <= i < |order|
      ensures AppearsBefore(items, order[i], items[n].subject)
    {
      NewComesLater(items, n, order[i]);
    }
  }

  /** Everything sent to one subject, in the order it was sent. */
  function SentTo(sent: seq<Message>, subject: string): seq<Item> {
    if sent == [] then []
    else
      var last := sent[|sent| - 1];
      SentTo(sent[..|sent| - 1], subject) + if last.subject == subject then last.items else []
  }

  lemma {:induction false} OfConcat(a: seq<Item>, b: seq<Item>, subject: string)
    ensures Of(a + b, subject) == Of(a, subject) + Of(b, subject)
  {
    if b == [] {
      assert a + b == a;
    } else {
      assert (a + b)[..|a + b| - 1] == a + b[..|b| - 1];
      OfConcat(a, b[..|b| - 1], subject);
    }
  }

  lemma {:induction false} SentToConcat(a: seq<Message>, b: seq<Message>, subject: string)
    ensures SentTo(a + b, subject) == SentTo(a, subject) + SentTo(b, subject)
  {
    if b == [] {
      assert a + b == a;
    } else {
      assert (a + b)[..|a + b| - 1] == a + b[..|b| - 1];
      SentToConcat(a, b[..|b| - 1], subject);
    }
  }

  lemma {:induction false} SizeOfConcat(a: seq<Item>, b: seq<Item>)
    ensures SizeOf(a + b) == SizeOf(a) + SizeOf(b)
  {
    if b == [] {
      assert a + b == a;
    } else {
      assert (a + b)[..|a + b| - 1] == a + b[..|b| - 1];
      SizeOfConcat(a, b[..|b| - 1]);
    }
  }

  /** The bodies as the items of a JSON array. */
  function Listed(items: seq<Item>): string {
    if items == [] then "" else if |items| == 1 then items[0].body
    else Listed(items[..|items| - 1]) + "," + items[|items| - 1].body
  }

  /** The size counted is never less than the array the items become, and at most a byte an item more. */
  lemma {:induction false} SizeCoversItems(items: seq<Item>)
    requires items != []
    ensures |"[" + Listed(items) + "]"| <= SizeOf(items) < |"[" + Listed(items) + "]"| + |items|
  {
    if |items| == 1 {
      assert items[..0] == [];
    } else {
      SizeCoversItems(items[..|items| - 1]);
    }
  }

  /** Selecting one subject keeps the order of what it selects. */
  lemma {:induction false} OfKeepsOrder(a: seq<Item>, b: seq<Item>, subject: string)
    requires Subsequence(a, b)
    ensures Subsequence(Of(a, subject), Of(b, subject))
    decreases |b|
  {
    if a != [] && b != [] {
      var a', b' := a[..|a| - 1], b[..|b| - 1];
      var last := b[|b| - 1];
      var tail := if last.subject == subject then [last] else [];
      if a[|a| - 1] == last && Subsequence(a', b') {
        OfKeepsOrder(a', b', subject);
        if tail != [] {
          SubsequencePush(Of(a', subject), Of(b', subject), last);
        } else {
          assert Of(a, subject) == Of(a', subject) && Of(b, subject) == Of(b', subject);
        }
      } else {
        OfKeepsOrder(a, b', subject);
        if tail != [] {
          SubsequencePush(Of(a, subject), Of(b', subject), last);
        } else {
          assert Of(b, subject) == Of(b', subject);
        }
      }
    }
  }

  /** Dropping from the front of a tail leaves a subsequence. */
  lemma SubsequenceDrop<T>(p: seq<T>, a: seq<T>, b: seq<T>, n: nat)
    requires n <= |a| && Subsequence(p + a, b)
    ensures Subsequence(p + a[n..], b)
  {
    SubsequenceSuffix(a, n);
    SubsequenceConcat(p, a[n..], a);
    SubsequenceTransitive(p + a[n..], p + a, b);
  }

  lemma {:induction false} SubsequenceSuffix<T>(a: seq<T>, n: nat)
    requires n <= |a|
    ensures Subsequence(a[n..], a)
    decreases |a|
  {
    if n < |a| {
      var a' := a[..|a| - 1];
      assert a == a' + [a[|a| - 1]] && a[n..] == a'[n..] + [a[|a| - 1]];
      SubsequenceSuffix(a', n);
      SubsequencePush(a'[n..], a', a[|a| - 1]);
    }
  }

  lemma Shifted(p: seq<Item>, it: Item)
    requires p != []
    ensures (p + [it])[1..] == p[1..] + [it]
  {
  }

  lemma AddedOrder(published: seq<Item>, pending: seq<Item>, added: seq<Item>, it: Item)
    requires Subsequence(published + pending, added)
    ensures Subsequence(published + (pending + [it]), added + [it])
  {
    SubsequencePush(published + pending, added, it);
    assert published + (pending + [it]) == (published + pending) + [it];
  }

  /** One message a subject. */
  function Messages(items: seq<Item>, order: seq<string>): seq<Message> {
    seq(|order|, i requires 0 <= i < |order| => Message(order[i], Of(items, order[i])))
  }

  lemma {:induction false} SentToMessages(items: seq<Item>, order: seq<string>, subject: string)
    requires Distinct(order)
    ensures SentTo(Messages(items, order), subject) == if subject in order then Of(items, subject) else []
  {
    if order != [] {
      var init := order[..|order| - 1];
      assert Messages(items, order)[..|order| - 1] == Messages(items, init);
      assert order == init + [order[|order| - 1]];
      SentToMessages(items, init, subject);
      assert order[|order| - 1] !in init;
    }
  }

  /** Nothing is lost but what was dropped, and what is pending is the newest of what was
      added, in order. */
  ghost predicate Balanced(pending: seq<Item>, size: nat, dropped: nat, added: seq<Item>, published: seq<Item>) {
    && size == SizeOf(pending)
    && |added| == |published| + |pending| + dropped
    && pending == added[|added| - |pending|..]
    && Subsequence(published + pending, added)
  }

  /** Each subject has been sent what was published for it, in small messages. */
  ghost predicate Delivered(sent: seq<Message>, published: seq<Item>) {
    && (forall s :: SentTo(sent, s) == Of(published, s))
    && (forall i :: 0 <= i < |sent| ==> 1 <= |sent[i].items| <= MaxItems)
  }

  class Sink {
    var pending: seq<Item>
    var size: nat
    var dropped: nat
    // History: all items added, all items handed to publishing, and the messages sent.
    ghost var added: seq<Item>
    ghost var published: seq<Item>
    ghost var sent: seq<Message>

    ghost predicate Valid()
      reads this
    {
      && Balanced(pending, size, dropped, added, published)
      && |pending| <= MaxPending
      && Delivered(sent, published)
    }

    constructor ()
      ensures Valid() && added == [] && published == [] && sent == []
    {
      pending, size, dropped, added, published, sent := [], 0, 0, [], [], [];
    }

    /** Only the oldest pending items are dropped, and only beyond the bound. */
    method Add(it: Item) returns (full: bool)
      requires Valid()
      modifies this`pending, this`size, this`dropped, this`added
      ensures Valid() && added == old(added) + [it]
      ensures if |old(pending)| < MaxPending then pending == old(pending) + [it] && dropped == old(dropped)
              else pending == old(pending)[1..] + [it] && dropped == old(dropped) + 1
      ensures full <==> |pending| >= MaxItems || SizeOf(pending) >= MaxSize
    {
      Push(it);
      full := |pending| >= MaxItems || size >= MaxSize;
    }

    /** Appends, and cuts the buffer down to its bound. */
    method Push(it: Item)
      requires Balanced(pending, size, dropped, added, published) && |pending| <= MaxPending
      modifies this`pending, this`size, this`dropped, this`added
      ensures Balanced(pending, size, dropped, added, published) && |pending| <= MaxPending
      ensures added == old(added) + [it]
      ensures if |old(pending)| < MaxPending then pending == old(pending) + [it] && dropped == old(dropped)
              else pending == old(pending)[1..] + [it] && dropped == old(dropped) + 1
    {
      ghost var was := pending;
      Append(it);
      if |pending| > MaxPending {
        assert |pending| - MaxPending == 1;
        Shifted(was, it);
        Trim();
      }
    }

    method Append(it: Item)
      requires Balanced(pending, size, dropped, added, published)
      modifies this`pending, this`size, this`added
      ensures Balanced(pending, size, dropped, added, published) && added == old(added) + [it] && pending == old(pending) + [it]
    {
      AddedOrder(published, pending, added, it);
      SizeOfConcat(pending, [it]);
      assert [it][..0] == [];
      pending := pending + [it];
      size := size + |it.body| + 2;
      added := added + [it];
    }

    /** Cuts the buffer down to its bound. */
    method Trim()
      requires Balanced(pending, size, dropped, added, published) && |pending| > MaxPending
      modifies this`pending, this`size, this`dropped
      ensures Balanced(pending, size, dropped, added, published) && pending == old(pending)[|old(pending)| - MaxPending..]
      ensures dropped == old(dropped) + |old(pending)| - MaxPending
    {
      var cut := |pending| - MaxPending;
      dropped := dropped + cut;
      SubsequenceDrop(published, pending, added, cut);
      pending := pending[cut..];
      size := SizeOf(pending);
    }

    /** The locked part of one round of flush. */
    method TakeBatch() returns (batch: seq<Item>)
      requires Valid() && pending != []
      modifies this`pending, this`size
      ensures 1 <= |batch| <= MaxItems && old(pending) == batch + pending
      ensures batch == old(pending) || |batch| == MaxItems
      ensures size == SizeOf(pending)
    {
      var n := |pending|;
      if n > MaxItems {
        n := MaxItems;
      }
      batch := pending[..n];
      pending := pending[n..];
      size := SizeOf(pending);
    }

    /** A stable partition: the subjects in order of first appearance, each with its items. */
    static method GroupBySubject(items: seq<Item>) returns (order: seq<string>, bySubject: map<string, seq<Item>>)
      ensures Distinct(order) && (forall s :: s in order <==> s in bySubject)
      ensures forall s :: s in bySubject <==> Of(items, s) != []
      ensures forall s :: s in bySubject ==> bySubject[s] == Of(items, s)
      ensures InFirstOrder(items, order)
    {
      order, bySubject := [], map[];
      for i := 0 to |items|
        invariant Distinct(order) && (forall s :: s in order <==> s in bySubject)
        invariant forall s :: s in bySubject <==> Of(items[..i], s) != []
        invariant forall s :: s in bySubject ==> bySubject[s] == Of(items[..i], s)
        invariant InFirstOrder(items, order)
      {
        var it := items[i];
        assert items[..i + 1][..i] == items[..i];
        if it.subject !in bySubject {
          NewComesLast(items, i, order);
          order := order + [it.subject];
          bySubject := bySubject[it.subject := []];
        }
        bySubject := bySubject[it.subject := bySubject[it.subject] + [it]];
      }
      assert items[..|items|] == items;
    }

    /** Sends one message a subject; together they carry the batch, subject by subject in order. */
    method Publish(items: seq<Item>)
      requires 1 <= |items| <= MaxItems
      modifies this`sent
      ensures old(sent) <= sent
      ensures forall s :: SentTo(sent[|old(sent)|..], s) == Of(items, s)
      ensures forall i :: |old(sent)| <= i < |sent| ==> 1 <= |sent[i].items| <= |items|
    {
      if |items| == 1 {
        Send(items[0].subject, items);
        assert items[..0] == [] && sent[|old(sent)|..] == [Message(items[0].subject, items)];
        assert [Message(items[0].subject, items)][..0] == [];
        return;
      }
      var order, bySubject := GroupBySubject(items);
      SendGroups(items, order, bySubject);
      assert sent[|old(sent)|..] == Messages(items, order);
      forall s
        ensures SentTo(Messages(items, order), s) == Of(items, s)
      {
        SentToMessages(items, order, s);
        assert s !in order ==> Of(items, s) == [];
      }
      forall i | 0 <= i < |order|
        ensures 1 <= |Messages(items, order)[i].items| <= |items|
      {
        assert order[i] in order;
        OfShorter(items, order[i]);
      }
    }

    method SendGroups(ghost items: seq<Item>, order: seq<string>, bySubject: map<string, seq<Item>>)
      requires forall s :: s in order ==> s in bySubject && bySubject[s] == Of(items, s)
      modifies this`sent
      ensures sent == old(sent) + Messages(items, order)
    {
      for i := 0 to |order|
        invariant sent == old(sent) + Messages(items, order[..i])
      {
        Send(order[i], bySubject[order[i]]);
      }
      assert order[..|order|] == order;
    }

    method Send(subject: string, items: seq<Item>)
      modifies this`sent
      ensures sent == old(sent) + [Message(subject, items)]
    {
      sent := sent + [Message(subject, items)];
    }

    /** One round of flush: a batch leaves the buffer and is published. */
    method Round()
      requires Valid() && pending != []
      modifies this
      ensures Valid() && added == old(added) && dropped == old(dropped)
      ensures |pending| < |old(pending)| && published + pending == old(published + pending)
    {
      ghost var before := sent;
      var batch := TakeBatch();
      Publish(batch);
      assert sent == before + sent[|before|..];
      forall s
        ensures SentTo(sent, s) == Of(published + batch, s)
      {
        OfConcat(published, batch, s);
        SentToConcat(before, sent[|before|..], s);
      }
      assert (published + batch) + pending == published + (batch + pending);
      published := published + batch;
    }

    /** Flush empties the buffer if nothing is added meanwhile. */
    method Flush()
      requires Valid()
      modifies this
      ensures Valid() && pending == [] && added == old(added) && dropped == old(dropped)
      ensures published == old(published + pending)
    {
      while |pending| > 0
        invariant Valid() && added == old(added) && dropped == old(dropped)
        invariant published + pending == old(published + pending)
        decreases |pending|
      {
        Round();
      }
      assert published == published + [];
    }

    /** Any interleaving of adds and rounds of flush. */
    method Run(ops: seq<Op>)
      requires Valid()
      modifies this
      ensures Valid() && added == old(added) + Adds(ops)
    {
      for i := 0 to |ops|
        invariant Valid() && added == old(added) + Adds(ops[..i])
      {
        assert ops[..i + 1][..i] == ops[..i];
        match ops[i]
        case AddOp(it) => var _ := Add(it);
        case RoundOp =>
          if |pending| > 0 {
            Round();
          }
      }
      assert ops[..|ops|] == ops;
    }

    /** What every valid sink guarantees a subject: it is sent a subsequence of its events, in the
        order they were added. */
    lemma SubjectOrder(subject: string)
      requires Valid()
      ensures Subsequence(SentTo(sent, subject), Of(added, subject))
    {
      SubsequencePrefix(published, pending);
      SubsequenceTransitive(published, published + pending, added);
      OfKeepsOrder(published, added, subject);
    }
  }

  datatype Op = AddOp(it: Item) | RoundOp

  function Adds(ops: seq<Op>): seq<Item> {
    if ops == [] then []
    else
      var last := ops[|ops| - 1];
      Adds(ops[..|ops| - 1]) + if last.AddOp? then [last.it] else []
  }

  lemma {:induction false} SubsequencePrefix<T>(a: seq<T>, b: seq<T>)
    ensures Subsequence(a, a + b)
  {
    if b == [] {
      assert a + b == a;
      SubsequenceRefl(a);
    } else {
      var b' := b[..|b| - 1];
      assert a + b == (a + b') + [b[|b| - 1]];
      SubsequencePrefix(a, b');
      SubsequencePush(a, a + b', b[|b| - 1]);
    }
  }

  lemma {:induction false} OfShorter(items: seq<Item>, subject: string)
    ensures |Of(items, subject)| <= |items|
  {
    if items != [] {
      OfShorter(items[..|items| - 1], subject);
    }
  }
}
