/** The opcodes of the inner interpreter that the machine gives a meaning to. */
module Opcodes {
  datatype Op =
    | Noop | HaltOp | Branch | ZBranch | Exit | Call | Lit | DoConst | Execute | PzChk | EqChk
    | Drop | Dup | Swap | Nip | Over | ToR | FromR | Pick | Depth
    | Plus | Minus | OnePlus | OneMinus | Multi | TwoMulti | Divid | TwoDivid
    | LShift | RShift | AndOp | OrOp | XorOp | Invert | Negate | Mod
    | Eq | Ne | EqZ | NeZ | Lt | Gt | ULt | UGt
    | DpVar | StaLoad | CLoad | WLoad | LLoad | XLoad | CStore | WStore | LStore | XStore | PspRst
    | EarlyWEmit | EarlyWKey | UserWEmit | UserWKey | UserDot | DelayUs
    | Find | CompOff | CompOn | CompSta | IsImmediate | Wib | Win | IsNumber | ToNumber
    | WordNew | XtToPrev | XtToBody | BlenLoad | BlenStore
    | Other(code: nat)
}
