/** What the stack, arithmetic and pushing opcodes do not look at. */
module Blind {
  import opened Words
  import opened Memory
  import opened Opcodes
  import opened Machine

  lemma SwapBlind(op: Op, s: State, e: Env)
    requires op.Swap?
    ensures ExecStack(op, s.(env := e)) == ExecStack(op, s).(env := e) && ExecStack(op, s).env == s.env
  {
  }

  lemma OverBlind(op: Op, s: State, e: Env)
    requires op.Over?
    ensures ExecStack(op, s.(env := e)) == ExecStack(op, s).(env := e) && ExecStack(op, s).env == s.env
  {
  }

  lemma ToRBlind(op: Op, s: State, e: Env)
    requires op.ToR?
    ensures ExecStack(op, s.(env := e)) == ExecStack(op, s).(env := e) && ExecStack(op, s).env == s.env
  {
  }

  lemma FromRBlind(op: Op, s: State, e: Env)
    requires op.FromR?
    ensures ExecStack(op, s.(env := e)) == ExecStack(op, s).(env := e) && ExecStack(op, s).env == s.env
  {
  }

  lemma CheckBlind(op: Op, s: State, e: Env)
    requires op.EqChk? || op.PzChk?
    ensures ExecStack(op, s.(env := e)) == ExecStack(op, s).(env := e) && ExecStack(op, s).env == s.env
  {
  }

  lemma SingleBlind(op: Op, s: State, e: Env)
    requires op.Drop? || op.Dup? || op.Nip? || op.Depth?
    ensures ExecStack(op, s.(env := e)) == ExecStack(op, s).(env := e) && ExecStack(op, s).env == s.env
  {
  }

  lemma PickBlind(op: Op, s: State, e: Env)
    requires op.Pick?
    ensures ExecStack(op, s.(env := e)) == ExecStack(op, s).(env := e) && ExecStack(op, s).env == s.env
  {
    hide Height, Nth;
  }

  lemma RestBlind(op: Op, s: State, e: Env)
    requires op.Noop? || op.PspRst?
    ensures ExecStack(op, s.(env := e)) == ExecStack(op, s).(env := e) && ExecStack(op, s).env == s.env
  {
  }

  /** Stack opcodes do not look at the environment. */
  lemma StackBlind(op: Op, s: State, e: Env)
    requires ClassOf(op) == Stacks
    ensures ExecStack(op, s.(env := e)) == ExecStack(op, s).(env := e) && ExecStack(op, s).env == s.env
  {
    hide ExecStack;
    match op {
      case Swap => SwapBlind(op, s, e);
      case Over => OverBlind(op, s, e);
      case ToR => ToRBlind(op, s, e);
      case FromR => FromRBlind(op, s, e);
      case EqChk | PzChk => CheckBlind(op, s, e);
      case Drop | Dup | Nip | Depth => SingleBlind(op, s, e);
      case Pick => PickBlind(op, s, e);
      case Noop | PspRst => RestBlind(op, s, e);
    }
  }

  /** Nor do arithmetic opcodes. */
  lemma ArithBlind(op: Op, s: State, e: Env)
    ensures ExecArith(op, s.(env := e)) == ExecArith(op, s).(env := e) && ExecArith(op, s).env == s.env
  {
    hide Result, Trap, Unary;
  }

  lemma PushedAlike(op: Op, sta: nat, e: Env, f: Env, depth: nat)
    requires e.comp == f.comp && e.wib == f.wib
    ensures Pushed(op, sta, e, depth) == Pushed(op, sta, f, depth)
  {
  }

  /** Opcodes that push a variable's address or a flag look at the compile state and the buffer's address only. */
  lemma PushBlind(op: Op, s: State, e: Env)
    requires e.comp == s.env.comp && e.wib == s.env.wib
    ensures ExecPush(op, s.(env := e)) == ExecPush(op, s).(env := e) && ExecPush(op, s).env == s.env
  {
    hide Pushed;
    PushedAlike(op, Sta(s), s.env, e, s.dn);
  }

  lemma PopEnv(s: State)
    ensures PPop(s).env == s.env
  {
  }
}
