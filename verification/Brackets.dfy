/** What the refinement means for an observer who sees only calls, starts, answers
    and returns: they are bracketed like those of ordinary nested calls. Every
    return belongs to the innermost command that its thread has open, and gives it
    the answer of the decoder that was started with its argument. */
module Brackets {
  import opened Common
  import opened Contexts
  import opened CallStacks
  import Engine
  import Refinement

  // ------------------------------------------------ levels

  /** How many calls of thread t are open after the first n labels. */
  function Level(ls: seq<Label>, n: nat, t: Tid): int
    requires n <= |ls|
  {
    if n == 0 then 0 else Level(ls, n - 1, t) + CallDelta(ls[n - 1], t)
  }

  function CallDelta(l: Label, t: Tid): int {
    match l
    case CallBy(u, _, _) => if u == t then 1 else 0
    case ReturnTo(u, _, _) => if u == t then -1 else 0
    case ResumeOf(u) => if u == t then -1 else 0
    case _ => 0
  }

  /** How many decoders thread t runs, not yet answered, after the first n labels. */
  function Serving(ls: seq<Label>, n: nat, t: Tid): int
    requires n <= |ls|
  {
    if n == 0 then 0 else Serving(ls, n - 1, t) + ServeDelta(ls[n - 1], t)
  }

  function ServeDelta(l: Label, t: Tid): int {
    match l
    case StartBy(u, _) => if u == t then 1 else 0
    case AnswerBy(u, _) => if u == t then -1 else 0
    case _ => 0
  }

  /** The call at label i is the innermost of t that is still open after n labels. */
  ghost predicate OpenSince(ls: seq<Label>, i: nat, n: nat, t: Tid, base: int)
    requires i < n <= |ls|
  {
    Level(ls, i, t) == base && forall m | i < m <= n :: Level(ls, m, t) > base
  }

  ghost predicate RunsSince(ls: seq<Label>, k: nat, n: nat, u: Tid, base: int)
    requires k < n <= |ls|
  {
    Serving(ls, k, u) == base && forall m | k < m <= n :: Serving(ls, m, u) > base
  }

  /** Thread u was started with `arg` at label k and answers this with v at label l. */
  ghost predicate Ran(ls: seq<Label>, k: nat, l: nat, u: Tid, arg: nat, v: nat) {
    && k < l < |ls| && ls[k] == StartBy(u, arg) && ls[l] == AnswerBy(u, v)
    && RunsSince(ls, k, l, u, Serving(ls, k, u)) && Serving(ls, l + 1, u) == Serving(ls, k, u)
  }

  // ------------------------------------------------ history behind the stacks

  /** Where the labels of each call of a conversation are: its call i with argument
      arg, its start k by thread u, its answer l, its acceptance r. */
  datatype Notes = NoNotes | Note(below: Notes, i: nat, arg: nat, k: nat, u: Tid, l: nat, r: nat)

  function OpenBy(c: Calls, init: bool): nat {
    match c
    case Bottom => 0
    case Above(b, top) => OpenBy(b, init) + (if top.byInitiator == init then 1 else 0)
  }

  function RunBy(c: Calls, init: bool): nat {
    match c
    case Bottom => 0
    case Above(b, top) => RunBy(b, init) + (if top.byInitiator != init && top.phase.Executing? then 1 else 0)
  }

  /** The thread in a role, if it is there. */
  function Role(p: Tid, server: Option<Tid>, init: bool): Option<Tid> {
    if init then Some(p) else server
  }

  ghost predicate PhaseOk(ls: seq<Label>, n: nat, p: Tid, server: Option<Tid>, c: Calls, t: Tid, o: Notes)
    requires c.Above? && o.Note? && n <= |ls|
  {
    match c.top.phase
    case Sent(x) => x == o.arg
    case Executing =>
      && o.i < o.k < n && ls[o.k] == StartBy(o.u, o.arg) && Role(p, server, !c.top.byInitiator) == Some(o.u)
      && RunsSince(ls, o.k, n, o.u, RunBy(c.below, !c.top.byInitiator))
    case Answered(v) => o.i < o.k < o.l < n && Ran(ls, o.k, o.l, o.u, o.arg, v) && o.u.side != t.side
    case Accepted =>
      && o.i < o.k < o.l < o.r < n && ls[o.r].AcceptFor? && ls[o.r].t == t && ls[o.r].sink == c.top.sink
      && Ran(ls, o.k, o.l, o.u, o.arg, ls[o.r].v) && o.u.side != t.side
      && forall m | o.r < m <= n :: Level(ls, m, t) == Level(ls, o.r, t)
  }

  ghost predicate NotesOk(ls: seq<Label>, n: nat, p: Tid, server: Option<Tid>, c: Calls, o: Notes)
    requires n <= |ls|
    decreases c
  {
    match c
    case Bottom => o.NoNotes?
    case Above(b, top) =>
      && o.Note? && NotesOk(ls, n, p, server, b, o.below)
      && (b.Above? ==> b.top.phase.Executing?) && (b.Bottom? ==> top.byInitiator)
      && Role(p, server, top.byInitiator).Some?
      && var t := Role(p, server, top.byInitiator).value;
         && o.i < n && ls[o.i] == CallBy(t, top.sink, o.arg)
         && OpenSince(ls, o.i, n, t, OpenBy(b, top.byInitiator))
         && PhaseOk(ls, n, p, server, c, t, o)
  }

  /** The counts of a thread in its role. */
  ghost predicate CountsOk(ls: seq<Label>, n: nat, t: Option<Tid>, c: Calls, init: bool)
    requires n <= |ls|
  {
    t.Some? ==> Level(ls, n, t.value) == OpenBy(c, init) && Serving(ls, n, t.value) == RunBy(c, init)
  }

  ghost predicate ConvOk(ls: seq<Label>, n: nat, p: Tid, cv: Conv, o: Notes)
    requires n <= |ls|
  {
    && cv.calls.Above? && NotesOk(ls, n, p, cv.server, cv.calls, o)
    && CountsOk(ls, n, Some(p), cv.calls, true) && CountsOk(ls, n, cv.server, cv.calls, false)
    && (cv.server.Some? ==> cv.server.value.side != p.side)
    && (cv.server.None? <==> cv.calls.below.Bottom? && !cv.calls.top.phase.Executing?)
  }

  ghost predicate HistOk(ls: seq<Label>, n: nat, a: Stacks, h: map<Tid, Notes>)
    requires n <= |ls|
  {
    && h.Keys == a.Keys
    && (forall p | p in a :: ConvOk(ls, n, p, a[p], h[p]))
    && (forall t | !Involved(a, t) :: Level(ls, n, t) == 0 && Serving(ls, n, t) == 0)
    && (forall p, q, t | p in a && q in a && Party(p, a[p].server, t) && Party(q, a[q].server, t) :: p == q)
  }

  // ------------------------------------------------ one label

  /** A conversation goes on being described after one more label, as long as the
      levels of its threads do not fall below what its calls need. */
  lemma {:induction false} NotesKeep(ls: seq<Label>, n: nat, p: Tid, server: Option<Tid>, c: Calls, o: Notes)
    requires n < |ls| && NotesOk(ls, n, p, server, c, o)
    requires forall init: bool | Role(p, server, init).Some? ::
               && Level(ls, n + 1, Role(p, server, init).value) >= OpenBy(c, init)
               && Serving(ls, n + 1, Role(p, server, init).value) >= RunBy(c, init)
    requires c.Above? && c.top.phase.Accepted? && Role(p, server, c.top.byInitiator).Some? ==>
               CallDelta(ls[n], Role(p, server, c.top.byInitiator).value) == 0
    ensures NotesOk(ls, n + 1, p, server, c, o)
  {
    hide OpenSince, PhaseOk, Level, Serving;
    if c.Above? {
      NotesKeep(ls, n, p, server, c.below, o.below);
      var t := Role(p, server, c.top.byInitiator).value;
      assert Level(ls, n + 1, t) > OpenBy(c.below, c.top.byInitiator);
      OpenKeep(ls, o.i, n, t, OpenBy(c.below, c.top.byInitiator));
      PhaseKeep(ls, n, p, server, c, t, o);
    }
  }

  lemma OpenKeep(ls: seq<Label>, i: nat, n: nat, t: Tid, base: int)
    requires i < n < |ls| && OpenSince(ls, i, n, t, base) && Level(ls, n + 1, t) > base
    ensures OpenSince(ls, i, n + 1, t, base)
  {
  }

  lemma PhaseKeep(ls: seq<Label>, n: nat, p: Tid, server: Option<Tid>, c: Calls, t: Tid, o: Notes)
    requires c.Above? && o.Note? && n < |ls| && PhaseOk(ls, n, p, server, c, t, o)
    requires c.top.phase.Executing? && Role(p, server, !c.top.byInitiator).Some? ==>
               Serving(ls, n + 1, Role(p, server, !c.top.byInitiator).value) > RunBy(c.below, !c.top.byInitiator)
    requires c.top.phase.Accepted? ==> CallDelta(ls[n], t) == 0
    ensures PhaseOk(ls, n + 1, p, server, c, t, o)
  {
  }

  /** A conversation that the label does not concern. */
  lemma ConvKeep(ls: seq<Label>, n: nat, p: Tid, cv: Conv, o: Notes)
    requires n < |ls| && ConvOk(ls, n, p, cv, o)
    requires forall t | Party(p, cv.server, t) :: CallDelta(ls[n], t) == 0 && ServeDelta(ls[n], t) == 0
    ensures ConvOk(ls, n + 1, p, cv, o)
  {
    assert Party(p, cv.server, p) && (cv.server.Some? ==> Party(p, cv.server, cv.server.value));
    NotesKeep(ls, n, p, cv.server, cv.calls, o);
  }

  /** One label changes conversation p only; it is a label of thread t. */
  lemma HistChange(ls: seq<Label>, n: nat, a: Stacks, a': Stacks, h: map<Tid, Notes>, h': map<Tid, Notes>, p: Tid, t: Tid)
    requires n < |ls| && HistOk(ls, n, a, h) && h'.Keys == a'.Keys
    requires forall q | q != p :: (q in a' <==> q in a) && (q in a ==> a'[q] == a[q] && h'[q] == h[q])
    requires forall u | u != t :: CallDelta(ls[n], u) == 0 && ServeDelta(ls[n], u) == 0
    requires forall q | q in a && q != p :: !Party(q, a[q].server, t)
    requires p in a' ==> ConvOk(ls, n + 1, p, a'[p], h'[p])
    requires forall u | p in a' && Party(p, a'[p].server, u) && u != t :: p in a && Party(p, a[p].server, u)
    requires forall u | !Involved(a', u) && (u == t || (p in a && Party(p, a[p].server, u))) ::
               Level(ls, n + 1, u) == 0 && Serving(ls, n + 1, u) == 0
    ensures HistOk(ls, n + 1, a', h')
  {
    hide ConvOk, Level, Serving;
    forall q | q in a' ensures ConvOk(ls, n + 1, q, a'[q], h'[q]) {
      if q != p { ConvKeep(ls, n, q, a[q], h[q]); }
    }
    forall u | !Involved(a', u) ensures Level(ls, n + 1, u) == 0 && Serving(ls, n + 1, u) == 0 {
      if u != t && !(p in a && Party(p, a[p].server, u)) {
        forall q | q in a ensures !Party(q, a[q].server, u) {
          if q != p { assert q in a' && a'[q] == a[q]; }
        }
        assert !Involved(a, u);
        LevelSame(ls, n, u);
      }
    }
    PartiesApart(a, a', p, t);
  }

  lemma LevelSame(ls: seq<Label>, n: nat, u: Tid)
    requires n < |ls| && CallDelta(ls[n], u) == 0 && ServeDelta(ls[n], u) == 0
    ensures Level(ls, n + 1, u) == Level(ls, n, u) && Serving(ls, n + 1, u) == Serving(ls, n, u)
  {
  }

  lemma PartiesApart(a: Stacks, a': Stacks, p: Tid, t: Tid)
    requires forall x, y, u | x in a && y in a && Party(x, a[x].server, u) && Party(y, a[y].server, u) :: x == y
    requires forall q | q != p :: (q in a' <==> q in a) && (q in a ==> a'[q] == a[q])
    requires forall q | q in a && q != p :: !Party(q, a[q].server, t)
    requires forall u | p in a' && Party(p, a'[p].server, u) && u != t :: p in a && Party(p, a[p].server, u)
    ensures forall x, y, u | x in a' && y in a' && Party(x, a'[x].server, u) && Party(y, a'[y].server, u) :: x == y
  {
  }

  lemma StepSame(ls: seq<Label>, n: nat, a: Stacks, h: map<Tid, Notes>)
    requires n < |ls| && HistOk(ls, n, a, h) && ls[n] == Internal
    ensures HistOk(ls, n + 1, a, h)
  {
    hide ConvOk;
    forall q | q in a ensures ConvOk(ls, n + 1, q, a[q], h[q]) { ConvKeep(ls, n, q, a[q], h[q]); }
  }

  lemma NotInvolved(a: Stacks, t: Tid)
    requires !Involved(a, t)
    ensures t !in a && forall q | q in a :: !Party(q, a[q].server, t)
  {
    assert t in a ==> Party(t, a[t].server, t);
  }

  lemma ConvOpens(ls: seq<Label>, n: nat, t: Tid, sink: Sink, arg: nat)
    requires n < |ls| && ls[n] == CallBy(t, sink, arg) && Level(ls, n, t) == 0 && Serving(ls, n, t) == 0
    ensures ConvOk(ls, n + 1, t, Conv(None, Above(Bottom, Call(true, sink, Sent(arg)))), Note(NoNotes, n, arg, 0, t, 0, 0))
  {
    assert OpenBy(Bottom, true) == 0 && RunBy(Bottom, true) == 0;
    assert NotesOk(ls, n + 1, t, None, Bottom, NoNotes);
  }

  lemma StepOpens(ls: seq<Label>, n: nat, a: Stacks, a': Stacks, h: map<Tid, Notes>, t: Tid, sink: Sink, arg: nat)
    returns (h': map<Tid, Notes>)
    requires n < |ls| && HistOk(ls, n, a, h) && ls[n] == CallBy(t, sink, arg)
    requires !Involved(a, t) && Opens(a, t, sink, arg, a')
    ensures HistOk(ls, n + 1, a', h')
  {
    hide ConvOk, Level, Serving;
    h' := h[t := Note(NoNotes, n, arg, 0, t, 0, 0)];
    NotInvolved(a, t);
    ConvOpens(ls, n, t, sink, arg);
    assert Party(t, a'[t].server, t);
    HistChange(ls, n, a, a', h, h', t, t);
  }

  /** A thread in a role is a party, and of no other conversation. */
  lemma RoleParty(ls: seq<Label>, n: nat, a: Stacks, h: map<Tid, Notes>, p: Tid, t: Tid, init: bool)
    requires n <= |ls| && HistOk(ls, n, a, h) && p in a && Role(p, a[p].server, init) == Some(t)
    ensures Party(p, a[p].server, t) && forall q | q in a && q != p :: !Party(q, a[q].server, t)
  {
    hide ConvOk;
  }

  lemma ConvCallsBack(ls: seq<Label>, n: nat, p: Tid, cv: Conv, o: Notes, t: Tid, sink: Sink, arg: nat)
    requires n < |ls| && ConvOk(ls, n, p, cv, o) && ls[n] == CallBy(t, sink, arg)
    requires cv.calls.top.phase == Executing && Callee(p, cv) == Some(t)
    ensures ConvOk(ls, n + 1, p, cv.(calls := Above(cv.calls, Call(!cv.calls.top.byInitiator, sink, Sent(arg)))),
                   Note(o, n, arg, 0, t, 0, 0))
  {
    NotesKeep(ls, n, p, cv.server, cv.calls, o);
  }

  lemma StepCallsBack(ls: seq<Label>, n: nat, a: Stacks, a': Stacks, h: map<Tid, Notes>, p: Tid, t: Tid, sink: Sink, arg: nat)
    returns (h': map<Tid, Notes>)
    requires n < |ls| && HistOk(ls, n, a, h) && ls[n] == CallBy(t, sink, arg) && CallsBack(a, p, t, sink, arg, a')
    ensures HistOk(ls, n + 1, a', h')
  {
    hide ConvOk, Level, Serving;
    RoleParty(ls, n, a, h, p, t, !a[p].calls.top.byInitiator);
    h' := h[p := Note(h[p], n, arg, 0, t, 0, 0)];
    assert ConvOk(ls, n, p, a[p], h[p]);
    ConvCallsBack(ls, n, p, a[p], h[p], t, sink, arg);
    HistSame(ls, n, a, a', h, h', p, t);
  }

  /** One label changes conversation p but none of its parties. */
  lemma HistSame(ls: seq<Label>, n: nat, a: Stacks, a': Stacks, h: map<Tid, Notes>, h': map<Tid, Notes>, p: Tid, t: Tid)
    requires n < |ls| && HistOk(ls, n, a, h) && p in a && p in a' && a' == a[p := a'[p]] && a'[p].server == a[p].server
    requires p in h' && h' == h[p := h'[p]] && ConvOk(ls, n + 1, p, a'[p], h'[p])
    requires forall u | u != t :: CallDelta(ls[n], u) == 0 && ServeDelta(ls[n], u) == 0
    requires Party(p, a[p].server, t) && forall q | q in a && q != p :: !Party(q, a[q].server, t)
    ensures HistOk(ls, n + 1, a', h')
  {
    hide ConvOk, Level, Serving;
    HistChange(ls, n, a, a', h, h', p, t);
  }

  lemma ConvStartsFirst(ls: seq<Label>, n: nat, p: Tid, cv: Conv, o: Notes, t: Tid, arg: nat)
    requires n < |ls| && ConvOk(ls, n, p, cv, o) && ls[n] == StartBy(t, arg) && p.side != t.side
    requires cv.calls.top.phase == Sent(arg) && cv.calls.below.Bottom? && Level(ls, n, t) == 0 && Serving(ls, n, t) == 0
    ensures ConvOk(ls, n + 1, p, WithPhase(cv.(server := Some(t)), Executing), o.(k := n, u := t))
  {
    NotesKeep(ls, n, p, cv.server, cv.calls, o);
    assert OpenBy(Bottom, false) == 0 && RunBy(Bottom, false) == 0 && RunBy(Bottom, true) == 0;
  }

  lemma StepStartsFirst(ls: seq<Label>, n: nat, a: Stacks, a': Stacks, h: map<Tid, Notes>, p: Tid, t: Tid, arg: nat)
    returns (h': map<Tid, Notes>)
    requires n < |ls| && HistOk(ls, n, a, h) && ls[n] == StartBy(t, arg)
    requires !Involved(a, t) && StartsFirst(a, p, t, arg, a')
    ensures HistOk(ls, n + 1, a', h')
  {
    hide Level, Serving, NotesOk;
    assert ConvOk(ls, n, p, a[p], h[p]);
    assert h[p].Note? by { NotesThere(ls, n, p, a[p], h[p]); }
    hide ConvOk;
    h' := h[p := h[p].(k := n, u := t)];
    NotInvolved(a, t);
    ConvStartsFirst(ls, n, p, a[p], h[p], t, arg);
    assert Party(p, a'[p].server, t) && Party(p, a'[p].server, p) && Party(p, a[p].server, p);
    ServerNone(ls, n, p, a[p], h[p]);
    HistChange(ls, n, a, a', h, h', p, t);
  }

  lemma NotesThere(ls: seq<Label>, n: nat, p: Tid, cv: Conv, o: Notes)
    requires n <= |ls| && ConvOk(ls, n, p, cv, o)
    ensures o.Note?
  {
  }

  lemma ServerNone(ls: seq<Label>, n: nat, p: Tid, cv: Conv, o: Notes)
    requires n <= |ls| && ConvOk(ls, n, p, cv, o) && cv.calls.below.Bottom? && !cv.calls.top.phase.Executing?
    ensures cv.server == None && cv.calls.top.byInitiator
  {
  }

  lemma ConvStartsBack(ls: seq<Label>, n: nat, p: Tid, cv: Conv, o: Notes, t: Tid, arg: nat)
    requires n < |ls| && ConvOk(ls, n, p, cv, o) && ls[n] == StartBy(t, arg)
    requires cv.calls.top.phase == Sent(arg) && cv.calls.below.Above? && Callee(p, cv) == Some(t)
    ensures ConvOk(ls, n + 1, p, WithPhase(cv, Executing), o.(k := n, u := t))
  {
    NotesKeep(ls, n, p, cv.server, cv.calls, o);
    var cv', o' := WithPhase(cv, Executing), o.(k := n, u := t);
    assert PhaseOk(ls, n + 1, p, cv.server, cv'.calls, Caller(p, cv).value, o');
    assert NotesOk(ls, n + 1, p, cv.server, cv'.calls, o');
  }

  lemma StepStartsBack(ls: seq<Label>, n: nat, a: Stacks, a': Stacks, h: map<Tid, Notes>, p: Tid, t: Tid, arg: nat)
    returns (h': map<Tid, Notes>)
    requires n < |ls| && HistOk(ls, n, a, h) && ls[n] == StartBy(t, arg) && StartsBack(a, p, t, arg, a')
    ensures HistOk(ls, n + 1, a', h')
  {
    hide ConvOk, Level, Serving;
    RoleParty(ls, n, a, h, p, t, !a[p].calls.top.byInitiator);
    assert ConvOk(ls, n, p, a[p], h[p]);
    NotesThere(ls, n, p, a[p], h[p]);
    h' := h[p := h[p].(k := n, u := t)];
    ConvStartsBack(ls, n, p, a[p], h[p], t, arg);
    HistSame(ls, n, a, a', h, h', p, t);
  }

  lemma ConvAnswers(ls: seq<Label>, n: nat, p: Tid, cv: Conv, o: Notes, t: Tid, v: nat)
    requires n < |ls| && ConvOk(ls, n, p, cv, o) && ls[n] == AnswerBy(t, v)
    requires cv.calls.top.phase == Executing && Callee(p, cv) == Some(t)
    ensures var cv' := if cv.calls.below.Bottom? then cv.(server := None) else cv;
            ConvOk(ls, n + 1, p, WithPhase(cv', Answered(v)), o.(l := n))
  {
    AnsweredKeep(ls, n, p, cv, o, t, v);
    AnsweredRan(ls, n, p, cv, o, t, v);
    var c := cv.calls;
    OpenKeep(ls, o.i, n, Caller(p, cv).value, OpenBy(c.below, c.top.byInitiator));
    var cv' := WithPhase(if c.below.Bottom? then cv.(server := None) else cv, Answered(v));
    var o' := o.(l := n);
    assert PhaseOk(ls, n + 1, p, cv'.server, cv'.calls, Caller(p, cv).value, o');
    assert NotesOk(ls, n + 1, p, cv'.server, c.below, o.below);
    assert NotesOk(ls, n + 1, p, cv'.server, cv'.calls, o');
    assert CountsOk(ls, n + 1, Some(p), cv'.calls, true);
    assert CountsOk(ls, n + 1, cv'.server, cv'.calls, false);
  }

  lemma AnsweredRan(ls: seq<Label>, n: nat, p: Tid, cv: Conv, o: Notes, t: Tid, v: nat)
    requires n < |ls| && ConvOk(ls, n, p, cv, o) && ls[n] == AnswerBy(t, v)
    requires cv.calls.top.phase == Executing && Callee(p, cv) == Some(t)
    ensures o.i < o.k < n && Ran(ls, o.k, n, t, o.arg, v) && o.u == t
    ensures Caller(p, cv).Some? && Caller(p, cv).value.side != t.side
  {
  }

  lemma AnsweredKeep(ls: seq<Label>, n: nat, p: Tid, cv: Conv, o: Notes, t: Tid, v: nat)
    requires n < |ls| && ConvOk(ls, n, p, cv, o) && ls[n] == AnswerBy(t, v)
    requires cv.calls.top.phase == Executing && Callee(p, cv) == Some(t)
    ensures NotesOk(ls, n + 1, p, cv.server, cv.calls.below, o.below)
  {
    NotesKeep(ls, n, p, cv.server, cv.calls.below, o.below);
  }

  /** The thread that served the first call leaves with nothing open. */
  lemma ServerLeaves(ls: seq<Label>, n: nat, p: Tid, cv: Conv, o: Notes, t: Tid, v: nat)
    requires n < |ls| && ConvOk(ls, n, p, cv, o) && ls[n] == AnswerBy(t, v)
    requires cv.calls.top.phase == Executing && Callee(p, cv) == Some(t) && cv.calls.below.Bottom?
    ensures Level(ls, n + 1, t) == 0 && Serving(ls, n + 1, t) == 0 && cv.server == Some(t)
  {
    assert OpenBy(Bottom, false) == 0 && RunBy(Bottom, false) == 0;
  }

  lemma StepAnswers(ls: seq<Label>, n: nat, a: Stacks, a': Stacks, h: map<Tid, Notes>, p: Tid, t: Tid, v: nat)
    returns (h': map<Tid, Notes>)
    requires n < |ls| && HistOk(ls, n, a, h) && ls[n] == AnswerBy(t, v) && Answers(a, p, t, v, a')
    ensures HistOk(ls, n + 1, a', h')
  {
    hide ConvOk, Level, Serving;
    RoleParty(ls, n, a, h, p, t, !a[p].calls.top.byInitiator);
    assert ConvOk(ls, n, p, a[p], h[p]);
    NotesThere(ls, n, p, a[p], h[p]);
    h' := h[p := h[p].(l := n)];
    ConvAnswers(ls, n, p, a[p], h[p], t, v);
    if a[p].calls.below.Bottom? {
      ServerLeaves(ls, n, p, a[p], h[p], t, v);
      assert Party(p, a'[p].server, p);
      HistChange(ls, n, a, a', h, h', p, t);
    } else {
      HistSame(ls, n, a, a', h, h', p, t);
    }
  }

  lemma ConvAccepts(ls: seq<Label>, n: nat, p: Tid, cv: Conv, o: Notes, t: Tid, v: nat)
    requires n < |ls| && ConvOk(ls, n, p, cv, o) && ls[n] == AcceptFor(t, cv.calls.top.sink, v)
    requires cv.calls.top.phase == Answered(v) && Caller(p, cv) == Some(t)
    ensures ConvOk(ls, n + 1, p, WithPhase(cv, Accepted), o.(r := n))
  {
    NotesKeep(ls, n, p, cv.server, cv.calls, o);
  }

  lemma StepAccepts(ls: seq<Label>, n: nat, a: Stacks, a': Stacks, h: map<Tid, Notes>, p: Tid, t: Tid, sink: Sink, v: nat)
    returns (h': map<Tid, Notes>)
    requires n < |ls| && HistOk(ls, n, a, h) && ls[n] == AcceptFor(t, sink, v)
    requires Deliverable(a, p, t, sink, v) && a' == a[p := WithPhase(a[p], Accepted)]
    ensures HistOk(ls, n + 1, a', h')
  {
    hide ConvOk, Level, Serving;
    RoleParty(ls, n, a, h, p, t, a[p].calls.top.byInitiator);
    assert ConvOk(ls, n, p, a[p], h[p]);
    NotesThere(ls, n, p, a[p], h[p]);
    h' := h[p := h[p].(r := n)];
    ConvAccepts(ls, n, p, a[p], h[p], t, v);
    HistSame(ls, n, a, a', h, h', p, t);
  }

  /** The innermost call is over. */
  lemma ConvPops(ls: seq<Label>, n: nat, p: Tid, cv: Conv, o: Notes, t: Tid)
    requires n < |ls| && ConvOk(ls, n, p, cv, o) && CallDelta(ls[n], t) == -1 && ServeDelta(ls[n], t) == 0
    requires forall u | u != t :: CallDelta(ls[n], u) == 0 && ServeDelta(ls[n], u) == 0
    requires !cv.calls.top.phase.Executing? && Caller(p, cv) == Some(t)
    ensures o.Note?
    ensures cv.calls.below.Above? ==> ConvOk(ls, n + 1, p, cv.(calls := cv.calls.below), o.below)
    ensures cv.calls.below.Bottom? ==> t == p && Level(ls, n + 1, p) == 0 && Serving(ls, n + 1, p) == 0
  {
    var b := cv.calls.below;
    if b.Above? {
      NotesKeep(ls, n, p, cv.server, b, o.below);
      assert NotesOk(ls, n, p, cv.server, b, o.below);
    } else {
      assert OpenBy(Bottom, true) == 0 && RunBy(Bottom, true) == 0;
    }
  }

  lemma StepPops(ls: seq<Label>, n: nat, a: Stacks, a': Stacks, h: map<Tid, Notes>, p: Tid, t: Tid)
    returns (h': map<Tid, Notes>)
    requires n < |ls| && HistOk(ls, n, a, h) && CallDelta(ls[n], t) == -1 && ServeDelta(ls[n], t) == 0
    requires forall u | u != t :: CallDelta(ls[n], u) == 0 && ServeDelta(ls[n], u) == 0
    requires p in a && a[p].calls.Above? && !a[p].calls.top.phase.Executing? && Caller(p, a[p]) == Some(t) && a' == Popped(a, p)
    ensures HistOk(ls, n + 1, a', h')
  {
    hide ConvOk, Level, Serving;
    RoleParty(ls, n, a, h, p, t, a[p].calls.top.byInitiator);
    assert ConvOk(ls, n, p, a[p], h[p]);
    ConvPops(ls, n, p, a[p], h[p], t);
    if a[p].calls.below.Above? {
      h' := h[p := h[p].below];
      HistSame(ls, n, a, a', h, h', p, t);
    } else {
      ServerNone(ls, n, p, a[p], h[p]);
      h' := h - {p};
      HistChange(ls, n, a, a', h, h', p, t);
    }
  }

  // ------------------------------------------------ what a return tells

  /** The return or acceptance at label n: the innermost open call of t, label i, has
      this sink; thread u of the other side was started with its argument, label k,
      and answered that start with v, label l. */
  ghost predicate MatchedBy(ls: seq<Label>, n: nat, t: Tid, sink: Sink, v: nat, i: nat, k: nat, l: nat, u: Tid, arg: nat) {
    && i < k < l < n < |ls| && ls[i] == CallBy(t, sink, arg) && Ran(ls, k, l, u, arg, v) && u.side != t.side
    && Level(ls, n, t) == Level(ls, i, t) + 1 && OpenSince(ls, i, n, t, Level(ls, i, t))
  }

  ghost predicate Matched(ls: seq<Label>, n: nat, t: Tid, sink: Sink, v: nat) {
    exists i, k, l, u, arg :: MatchedBy(ls, n, t, sink, v, i, k, l, u, arg)
  }

  /** The wake-up at label n: the response handler of the innermost open call of t
      was run at label r, and t did nothing since. */
  ghost predicate AcceptedEarlier(ls: seq<Label>, n: nat, t: Tid) {
    exists r :: 0 <= r < n < |ls| && ls[r].AcceptFor? && ls[r].t == t && forall m | r < m <= n :: Level(ls, m, t) == Level(ls, r, t)
  }

  ghost predicate LabelOk(ls: seq<Label>, n: nat)
    requires n < |ls|
  {
    match ls[n]
    case ReturnTo(t, sink, v) => Matched(ls, n, t, sink, v)
    case AcceptFor(t, sink, v) => Matched(ls, n, t, sink, v)
    case ResumeOf(t) => AcceptedEarlier(ls, n, t)
    case _ => true
  }

  lemma DeliverableMatched(ls: seq<Label>, n: nat, a: Stacks, h: map<Tid, Notes>, p: Tid, t: Tid, sink: Sink, v: nat)
    requires n < |ls| && HistOk(ls, n, a, h) && Deliverable(a, p, t, sink, v)
    ensures Matched(ls, n, t, sink, v)
  {
    var o := h[p];
    assert ConvOk(ls, n, p, a[p], o);
    assert MatchedBy(ls, n, t, sink, v, o.i, o.k, o.l, o.u, o.arg);
  }

  lemma AcceptedBefore(ls: seq<Label>, n: nat, a: Stacks, h: map<Tid, Notes>, p: Tid, t: Tid)
    requires n < |ls| && HistOk(ls, n, a, h) && TopIs(a, p, Accepted) && Caller(p, a[p]) == Some(t)
    ensures AcceptedEarlier(ls, n, t)
  {
    var o := h[p];
    assert ConvOk(ls, n, p, a[p], o);
    assert 0 <= o.r < n;
  }

  lemma HistStep(ls: seq<Label>, n: nat, a: Stacks, a': Stacks, h: map<Tid, Notes>) returns (h': map<Tid, Notes>)
    requires n < |ls| && HistOk(ls, n, a, h) && StackStep(a, ls[n], a')
    ensures HistOk(ls, n + 1, a', h') && LabelOk(ls, n)
  {
    hide HistOk, Matched, AcceptedEarlier;
    match ls[n]
    case Internal => StepSame(ls, n, a, h); h' := h;
    case CallBy(t, sink, arg) =>
      if p :| CallsBack(a, p, t, sink, arg, a') {
        h' := StepCallsBack(ls, n, a, a', h, p, t, sink, arg);
      } else {
        h' := StepOpens(ls, n, a, a', h, t, sink, arg);
      }
    case StartBy(t, arg) =>
      if p :| StartsBack(a, p, t, arg, a') {
        h' := StepStartsBack(ls, n, a, a', h, p, t, arg);
      } else {
        var p :| StartsFirst(a, p, t, arg, a');
        h' := StepStartsFirst(ls, n, a, a', h, p, t, arg);
      }
    case AnswerBy(t, v) =>
      var p :| Answers(a, p, t, v, a');
      h' := StepAnswers(ls, n, a, a', h, p, t, v);
    case AcceptFor(t, sink, v) =>
      var p :| Deliverable(a, p, t, sink, v) && a' == a[p := WithPhase(a[p], Accepted)];
      DeliverableMatched(ls, n, a, h, p, t, sink, v);
      h' := StepAccepts(ls, n, a, a', h, p, t, sink, v);
    case ResumeOf(t) =>
      var p :| TopIs(a, p, Accepted) && Caller(p, a[p]) == Some(t) && a' == Popped(a, p);
      AcceptedBefore(ls, n, a, h, p, t);
      h' := StepPops(ls, n, a, a', h, p, t);
    case ReturnTo(t, sink, v) =>
      var p :| Deliverable(a, p, t, sink, v) && a' == Popped(a, p);
      DeliverableMatched(ls, n, a, h, p, t, sink, v);
      h' := StepPops(ls, n, a, a', h, p, t);
  }

  /** A run of the call stacks with labels ls. */
  ghost predicate LabelRun(ls: seq<Label>, a: seq<Stacks>) {
    |a| == |ls| + 1 && a[0] == map[] && forall i | 0 <= i < |ls| :: StackStep(a[i], ls[i], a[i + 1])
  }

  lemma {:induction false} HistRun(ls: seq<Label>, a: seq<Stacks>, n: nat) returns (h: map<Tid, Notes>)
    requires LabelRun(ls, a) && n <= |ls|
    ensures HistOk(ls, n, a[n], h) && forall m | 0 <= m < n :: LabelOk(ls, m)
  {
    hide StackStep, LabelOk, ConvOk;
    if n == 0 {
      h := map[];
    } else {
      hide HistOk;
      var g := HistRun(ls, a, n - 1);
      h := HistStep(ls, n - 1, a[n - 1], a[n], g);
    }
  }

  /** Every label of a run of the call stacks is matched. */
  lemma AllMatched(ls: seq<Label>, a: seq<Stacks>)
    requires LabelRun(ls, a)
    ensures forall n | 0 <= n < |ls| :: LabelOk(ls, n)
  {
    hide LabelOk, HistOk, StackStep;
    var h := HistRun(ls, a, |ls|);
  }

  /** What an observer sees of a polite run. */
  ghost function Seen(tr: seq<Engine.State>, es: seq<Engine.Step>): seq<Label>
    requires Refinement.PoliteRun(tr, es)
  {
    seq(|es|, i requires 0 <= i < |es| => Refinement.Obs(tr[i], es[i]))
  }

  /** Matched returns: in every polite run, every return to a caller and every
      response handler that is run belongs to the innermost command that its thread
      has open at that moment, has the sink of that command, and carries the value
      with which a thread of the other side answered after it was started with the
      argument of that command. */
  lemma MatchedReturns(tr: seq<Engine.State>, es: seq<Engine.Step>, n: nat)
    requires Refinement.PoliteRun(tr, es) && n < |es|
    ensures match Refinement.Obs(tr[n], es[n])
            case ReturnTo(t, sink, v) => Matched(Seen(tr, es), n, t, sink, v)
            case AcceptFor(t, sink, v) => Matched(Seen(tr, es), n, t, sink, v)
            case ResumeOf(t) => AcceptedEarlier(Seen(tr, es), n, t)
            case _ => true
  {
    hide StackStep, Refinement.Obs, Matched, AcceptedEarlier;
    Refinement.NestedCallRefinement(tr, es);
    var a :| Refinement.StackRun(a, tr, es);
    assert LabelRun(Seen(tr, es), a);
    AllMatched(Seen(tr, es), a);
    assert LabelOk(Seen(tr, es), n);
  }
}
