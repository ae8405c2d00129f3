/** How far a sequential script gets with the answers recorded so far. */
module Positions {
  import opened Types
  import opened CallKeys
  import opened Scripts

  /** The script makes at most `n` calls, whatever the answers (its step limit bounds them). */
  ghost predicate AtMost(p: Prog, n: int)
    decreases p
  {
    match p
    case Ret(_) => true
    case Call(_, rest) => n > 0 && forall r :: r in rest ==> AtMost(rest[r], n - 1)
    case Par(_, _) => true
  }

  datatype Position = Position(prog: Prog, ctr: nat)

  /** The answer on record for the call at `ctr`, if any; an ungranted call needs none. */
  function AnswerAt(inv: Invocation, ctr: nat, granted: set<string>, memo: map<string, RPCRecord>): Option<Response> {
    if Itoa(ctr) in memo then Some(Replayed(inv, memo[Itoa(ctr)]))
    else if inv.capability !in granted then Some(NotGranted(inv))
    else None
  }

  /** Only granted calls are on record. */
  ghost predicate RecordsGranted(granted: set<string>, memo: map<string, RPCRecord>) {
    forall k :: k in memo ==> memo[k].capability in granted
  }

  /** Where replay stops: at the first call without an answer, or at the end. */
  ghost function StopAt(p: Prog, ctr: nat, granted: set<string>, memo: map<string, RPCRecord>): (s: Position)
    ensures s.ctr >= ctr
    decreases p
  {
    if p.Call? && AnswerAt(p.inv, ctr, granted, memo).Some? then
      var r := AnswerAt(p.inv, ctr, granted, memo).value;
      if r in p.rest then StopAt(p.rest[r], ctr + 1, granted, memo) else Position(NO_CONTINUATION, ctr + 1)
    else Position(p, ctr)
  }

  /** Every recorded answer on the way was given to the same call. */
  ghost predicate Agrees(p: Prog, ctr: nat, granted: set<string>, memo: map<string, RPCRecord>)
    decreases p
  {
    p.Call? && AnswerAt(p.inv, ctr, granted, memo).Some? ==>
      (Itoa(ctr) in memo ==> SameCall(memo[Itoa(ctr)], p.inv))
      && var r := AnswerAt(p.inv, ctr, granted, memo).value;
         (r in p.rest ==> Agrees(p.rest[r], ctr + 1, granted, memo))
  }

  /** Replay stops at the script's end exactly when the reference run from the same answers is
      complete, and with its result. */
  lemma {:induction false} StopIsRefRun(p: Prog, ctr: nat, c: Ctx)
    requires Sequential(p) && Agrees(p, ctr, c.granted, c.memo) && RecordsGranted(c.granted, c.memo)
    ensures var s := StopAt(p, ctr, c.granted, c.memo);
            RefRun(p, [], ctr, c) == if s.prog.Ret? then Some(s.prog.finish) else None
    decreases p
  {
    if p.Call? {
      DottedSnoc([], ctr);
      assert [] + [ctr] == [ctr];
      assert AnswerAt(p.inv, ctr, c.granted, c.memo) == Known(p.inv, Dotted([] + [ctr]), c);
      if AnswerAt(p.inv, ctr, c.granted, c.memo).Some? {
        var r := AnswerAt(p.inv, ctr, c.granted, c.memo).value;
        if r in p.rest { StopIsRefRun(p.rest[r], ctr + 1, c); }
      }
    }
  }

  /** The call replay stops at is the one the script makes there. */
  lemma {:induction false} StopIsCall(p: Prog, ctr: nat, c: Ctx)
    requires Sequential(p) && Agrees(p, ctr, c.granted, c.memo) && RecordsGranted(c.granted, c.memo)
    ensures var s := StopAt(p, ctr, c.granted, c.memo); s.prog.Call? ==> InvAt(p, [], ctr, c, [s.ctr]) == Some(s.prog.inv)
    decreases p
  {
    if p.Call? {
      DottedSnoc([], ctr);
      assert [] + [ctr] == [ctr];
      assert AnswerAt(p.inv, ctr, c.granted, c.memo) == Known(p.inv, Dotted([] + [ctr]), c);
      if AnswerAt(p.inv, ctr, c.granted, c.memo).Some? {
        var r := AnswerAt(p.inv, ctr, c.granted, c.memo).value;
        if r in p.rest { StopIsCall(p.rest[r], ctr + 1, c); }
      }
    }
  }

  lemma {:induction false} StopKeeps(p: Prog, ctr: nat, granted: set<string>, memo: map<string, RPCRecord>, n: int)
    requires Sequential(p) && AtMost(p, n)
    ensures var s := StopAt(p, ctr, granted, memo);
            && Sequential(s.prog) && ctr <= s.ctr && AtMost(s.prog, n - (s.ctr - ctr))
            && (s.prog.Call? ==> s.prog.inv.capability in granted && Itoa(s.ctr) !in memo)
    decreases p
  {
    if p.Call? && AnswerAt(p.inv, ctr, granted, memo).Some? {
      var r := AnswerAt(p.inv, ctr, granted, memo).value;
      if r in p.rest { StopKeeps(p.rest[r], ctr + 1, granted, memo, n - 1); }
    }
  }

  /** With more answers, replay goes on from where it stopped. */
  lemma {:induction false} StopGrows(p: Prog, ctr: nat, granted: set<string>, memo: map<string, RPCRecord>, memo': map<string, RPCRecord>)
    requires forall k :: k in memo ==> k in memo' && memo'[k] == memo[k]
    requires forall i: nat :: i < StopAt(p, ctr, granted, memo).ctr && Itoa(i) in memo' ==> Itoa(i) in memo
    ensures var s := StopAt(p, ctr, granted, memo); StopAt(p, ctr, granted, memo') == StopAt(s.prog, s.ctr, granted, memo')
    ensures var s := StopAt(p, ctr, granted, memo);
            Agrees(p, ctr, granted, memo) && Agrees(s.prog, s.ctr, granted, memo') ==> Agrees(p, ctr, granted, memo')
    decreases p
  {
    if p.Call? && AnswerAt(p.inv, ctr, granted, memo).Some? {
      var r := AnswerAt(p.inv, ctr, granted, memo).value;
      if r in p.rest { StopGrows(p.rest[r], ctr + 1, granted, memo, memo'); }
    }
  }

  /** Going on from a call with answer `r`. */
  ghost function Onward(s: Position, r: Response, granted: set<string>, memo: map<string, RPCRecord>): (n: Position)
    requires s.prog.Call?
    ensures n.ctr > s.ctr
  {
    if r in s.prog.rest then StopAt(s.prog.rest[r], s.ctr + 1, granted, memo) else Position(NO_CONTINUATION, s.ctr + 1)
  }

  /** Recording the answer to the call where replay stops moves replay on by that answer. */
  lemma RecordMoves(p: Prog, granted: set<string>, memo: map<string, RPCRecord>, rec: RPCRecord)
    requires var s := StopAt(p, 0, granted, memo); s.prog.Call? && s.prog.inv.capability in granted && Itoa(s.ctr) !in memo && SameCall(rec, s.prog.inv)
    requires Agrees(p, 0, granted, memo)
    ensures var s := StopAt(p, 0, granted, memo); var memo' := memo[Itoa(s.ctr) := rec]; var r := Replayed(s.prog.inv, rec);
            && StopAt(p, 0, granted, memo') == Onward(s, r, granted, memo')
            && ((r in s.prog.rest ==> Agrees(s.prog.rest[r], s.ctr + 1, granted, memo')) ==> Agrees(p, 0, granted, memo'))
  {
    var s := StopAt(p, 0, granted, memo);
    var memo' := memo[Itoa(s.ctr) := rec];
    forall i: nat | i < s.ctr && Itoa(i) in memo' ensures Itoa(i) in memo {
      if Itoa(i) == Itoa(s.ctr) { ItoaInjective(i, s.ctr); }
    }
    StopGrows(p, 0, granted, memo, memo');
  }
}
