/** The ordinary nested call that nRF RPC is meant to look like: a conversation
    is one stack of calls between two threads. Nothing here knows of packets,
    context ids, mailboxes or use counts. */
module CallStacks {
  import opened Common
  import opened Contexts

  datatype Phase = Sent(arg: nat) | Executing | Answered(v: nat) | Accepted

  /** `byInitiator`: the call is made by the thread that opened the conversation. */
  datatype Call = Call(byInitiator: bool, sink: Sink, phase: Phase)

  datatype Calls = Bottom | Above(below: Calls, top: Call)

  datatype Conv = Conv(server: Option<Tid>, calls: Calls)

  /** The open conversations, each under the thread that opened it. */
  type Stacks = map<Tid, Conv>

  datatype Label =
    | Internal
    | CallBy(t: Tid, sink: Sink, arg: nat)
    | StartBy(t: Tid, arg: nat)
    | AnswerBy(t: Tid, v: nat)
    | AcceptFor(t: Tid, sink: Sink, v: nat)
    | ResumeOf(t: Tid)
    | ReturnTo(t: Tid, sink: Sink, v: nat)

  predicate Party(p: Tid, server: Option<Tid>, t: Tid) {
    t == p || server == Some(t)
  }

  ghost predicate Involved(a: Stacks, t: Tid) {
    exists p :: p in a && Party(p, a[p].server, t)
  }

  function Caller(p: Tid, cv: Conv): Option<Tid>
    requires cv.calls.Above?
  {
    if cv.calls.top.byInitiator then Some(p) else cv.server
  }

  function Callee(p: Tid, cv: Conv): Option<Tid>
    requires cv.calls.Above?
  {
    if cv.calls.top.byInitiator then cv.server else Some(p)
  }

  function WithPhase(cv: Conv, ph: Phase): Conv
    requires cv.calls.Above?
  {
    cv.(calls := Above(cv.calls.below, cv.calls.top.(phase := ph)))
  }

  /** The innermost call of p's conversation, in the given phase. */
  predicate TopIs(a: Stacks, p: Tid, ph: Phase) {
    p in a && a[p].calls.Above? && a[p].calls.top.phase == ph
  }

  /** The innermost call returns: the stack is one shorter, and an empty stack
      ends the conversation. */
  function Popped(a: Stacks, p: Tid): Stacks
    requires p in a && a[p].calls.Above?
  {
    if a[p].calls.below.Bottom? then a - {p} else a[p := a[p].(calls := a[p].calls.below)]
  }

  /** A thread outside every conversation opens one. */
  predicate Opens(a: Stacks, t: Tid, sink: Sink, arg: nat, a': Stacks) {
    a' == a[t := Conv(None, Above(Bottom, Call(true, sink, Sent(arg))))]
  }

  /** The thread that executes the innermost call calls back. */
  predicate CallsBack(a: Stacks, p: Tid, t: Tid, sink: Sink, arg: nat, a': Stacks) {
    && TopIs(a, p, Executing) && Callee(p, a[p]) == Some(t)
    && a' == a[p := a[p].(calls := Above(a[p].calls, Call(!a[p].calls.top.byInitiator, sink, Sent(arg))))]
  }

  /** An uninvolved thread of the other side starts the first call. */
  predicate StartsFirst(a: Stacks, p: Tid, t: Tid, arg: nat, a': Stacks) {
    && TopIs(a, p, Sent(arg)) && a[p].calls.below.Bottom? && t.side != p.side
    && a' == a[p := WithPhase(a[p].(server := Some(t)), Executing)]
  }

  /** A callback runs on the very thread that waits for the response. */
  predicate StartsBack(a: Stacks, p: Tid, t: Tid, arg: nat, a': Stacks) {
    && TopIs(a, p, Sent(arg)) && a[p].calls.below.Above? && Callee(p, a[p]) == Some(t)
    && a' == a[p := WithPhase(a[p], Executing)]
  }

  /** The callee of the innermost call answers it; after the answer to the first
      call the serving thread is out of the conversation. */
  predicate Answers(a: Stacks, p: Tid, t: Tid, v: nat, a': Stacks) {
    && TopIs(a, p, Executing) && Callee(p, a[p]) == Some(t)
    && a' == a[p := WithPhase(if a[p].calls.below.Bottom? then a[p].(server := None) else a[p], Answered(v))]
  }

  /** The answer of the innermost call reaches the sink of that same call. */
  predicate Deliverable(a: Stacks, p: Tid, t: Tid, sink: Sink, v: nat) {
    TopIs(a, p, Answered(v)) && a[p].calls.top.sink == sink && Caller(p, a[p]) == Some(t)
  }

  ghost predicate StackStep(a: Stacks, l: Label, a': Stacks) {
    match l
    case Internal => a' == a
    case CallBy(t, sink, arg) =>
      || (!Involved(a, t) && Opens(a, t, sink, arg, a'))
      || exists p :: CallsBack(a, p, t, sink, arg, a')
    case StartBy(t, arg) =>
      || (!Involved(a, t) && exists p :: StartsFirst(a, p, t, arg, a'))
      || exists p :: StartsBack(a, p, t, arg, a')
    case AnswerBy(t, v) => exists p :: Answers(a, p, t, v, a')
    case AcceptFor(t, sink, v) =>
      exists p :: Deliverable(a, p, t, sink, v) && a' == a[p := WithPhase(a[p], Accepted)]
    case ResumeOf(t) =>
      exists p :: TopIs(a, p, Accepted) && Caller(p, a[p]) == Some(t) && a' == Popped(a, p)
    case ReturnTo(t, sink, v) =>
      exists p :: Deliverable(a, p, t, sink, v) && a' == Popped(a, p)
  }
}
