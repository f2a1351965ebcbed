/** What a Pudl program means: an interpreter over the tree, in which `fuel` bounds the depth of
    calls and the number of loop iterations.  A program that needs more ends in `Timeout`.

    Variables live in a map.  Leaving a block drops what was declared in it.  A conversion
    follows the code: a bool is read as a signed one-bit number, and an `int` is divided as an
    unsigned one. */
module Source {
  import opened Wrappers
  import opened Values
  import opened Ast

  /** `Unbound`: a name that is not in scope, or a call that no function fits. */
  datatype Halt = Timeout | FellOff | DivByZero | IllTyped | Unbound

  datatype OpResult = Good(v: Val) | Bad(why: Halt)
  datatype ExprResult = Value(v: Val, out: seq<Event>) | Halted(why: Halt, out: seq<Event>)
  datatype ArgsResult = Arguments(vs: seq<Val>, out: seq<Event>) | ArgsHalted(why: Halt, out: seq<Event>)
  datatype StmtResult =
    | Normal(env: Env, out: seq<Event>)
    | Returned(v: Val, out: seq<Event>)
    | Stopped(why: Halt, out: seq<Event>)

  type Env = map<string, Val>

  datatype World = World(p: Program, ops: FloatOps)

  predicate HasType(v: Val, t: TType) {
    match t
    case BOOL => v.BoolV?
    case FLOAT => v.FloatV?
    case INTEGER => v.IntV?
    case UNDEFINED => v.IntV?
  }

  function Convert(ops: FloatOps, v: Val, to: TType): Val {
    match (to, v)
    case (FLOAT, IntV(n)) => FloatV(ops.ofInt(n))
    case (FLOAT, BoolV(b)) => FloatV(ops.ofInt(if b then -1 else 0))
    case (FLOAT, _) => v
    case (BOOL, IntV(n)) => BoolV(n % 2 == 1)
    case (BOOL, FloatV(f)) => BoolV(ops.toBool(f))
    case (BOOL, _) => v
    case (_, BoolV(b)) => IntV(if b then -1 else 0)
    case (_, FloatV(f)) => IntV(ops.toInt(f))
    case (_, _) => v
  }

  function IntArithmetic(op: BinaryOp, a: I32, b: I32): OpResult
    requires op.IsArithmetic()
  {
    match op
    case Add => Good(IntV(Wrap32(a + b)))
    case Sub => Good(IntV(Wrap32(a - b)))
    case Mul => Good(IntV(Wrap32(a * b)))
    case Div => if b == 0 then Bad(DivByZero) else Good(IntV(UnsignedDiv(a, b)))
  }

  function FloatArithmetic(ops: FloatOps, op: BinaryOp, a: F32, b: F32): F32
    requires op.IsArithmetic()
  {
    match op
    case Add => ops.add(a, b)
    case Sub => ops.sub(a, b)
    case Mul => ops.mul(a, b)
    case Div => ops.div(a, b)
  }

  predicate IntRelation(op: BinaryOp, a: I32, b: I32)
    requires op.IsRelation()
  {
    match op
    case Eq => a == b
    case Ne => a != b
    case Gt => a > b
    case Lt => a < b
    case Ge => a >= b
    case Le => a <= b
  }

  predicate FloatRelation(ops: FloatOps, op: BinaryOp, a: F32, b: F32)
    requires op.IsRelation()
  {
    match op
    case Eq => ops.eq(a, b)
    case Ne => ops.ne(a, b)
    case Gt => ops.gt(a, b)
    case Lt => ops.lt(a, b)
    case Ge => ops.ge(a, b)
    case Le => ops.le(a, b)
  }

  /** `+ - * /` and the comparisons.  If one side is a float, so is the operation. */
  function Strict(ops: FloatOps, isFloat: bool, op: BinaryOp, l: Val, r: Val): OpResult
    requires op.IsArithmetic() || op.IsRelation()
  {
    if isFloat then
      match (Convert(ops, l, FLOAT), Convert(ops, r, FLOAT))
      case (FloatV(a), FloatV(b)) =>
        if op.IsArithmetic() then Good(FloatV(FloatArithmetic(ops, op, a, b)))
        else Good(BoolV(FloatRelation(ops, op, a, b)))
      case (_, _) => Bad(IllTyped)
    else
      match (l, r)
      case (IntV(a), IntV(b)) =>
        if op.IsArithmetic() then IntArithmetic(op, a, b) else Good(BoolV(IntRelation(op, a, b)))
      case (BoolV(a), BoolV(b)) =>
        if op.Eq? then Good(BoolV(a == b))
        else if op.Ne? then Good(BoolV(a != b))
        else Bad(IllTyped)
      case (_, _) => Bad(IllTyped)
  }

  function Monadic(ops: FloatOps, op: UnaryOp, t: TType, v: Val): OpResult {
    match op
    case Pos => Good(v)
    case Not => if v.BoolV? then Good(BoolV(!v.b)) else Bad(IllTyped)
    case Neg =>
      if t == FLOAT && v.FloatV? then Good(FloatV(ops.neg(v.f)))
      else if t == INTEGER && v.IntV? then Good(IntV(Wrap32(0 - v.n)))
      else Bad(IllTyped)
  }

  /** What `print` writes for a value of an expression of type `t`. */
  function Shown(ops: FloatOps, t: TType, v: Val): Option<Event> {
    match (t, v)
    case (FLOAT, FloatV(f)) => Some(PrintDouble(ops.extend(f)))
    case (BOOL, BoolV(b)) => Some(PrintInt(if b then 1 else 0))
    case (INTEGER, IntV(n)) => Some(PrintInt(n))
    case (UNDEFINED, IntV(n)) => Some(PrintInt(n))
    case (_, _) => None
  }

  function Bind(params: seq<Param>, vs: seq<Val>): Env
    requires |params| == |vs|
  {
    if params == [] then map[]
    else Bind(params[..|params| - 1], vs[..|vs| - 1])[params[|params| - 1].name := vs[|vs| - 1]]
  }

  function Restrict(env: Env, names: set<string>): Env {
    map x | x in env && x in names :: env[x]
  }

  function Eval(w: World, e: Expr, env: Env, out: seq<Event>, fuel: nat): ExprResult
    decreases fuel, 1, e
  {
    match e
    case Var(x, t) =>
      if x !in env then Halted(Unbound, out)
      else if HasType(env[x], t) then Value(env[x], out)
      else Halted(IllTyped, out)
    case BoolLit(b) => Value(BoolV(b), out)
    case IntLit(n) => Value(IntV(n), out)
    case FloatLit(f) => Value(FloatV(f), out)
    case Unary(op, sub) =>
      (match Eval(w, sub, env, out, fuel)
       case Halted(_, _) => Eval(w, sub, env, out, fuel)
       case Value(v, out1) => Conclude(Monadic(w.ops, op, sub.Type(), v), out1))
    case Binary(_, op, l, r) =>
      (match Eval(w, l, env, out, fuel)
       case Halted(_, _) => Eval(w, l, env, out, fuel)
       case Value(a, out1) =>
         if op.And? || op.Or? then
           if !a.BoolV? then Halted(IllTyped, out1)
           else if a.b == op.Or? then Value(a, out1)
           else
             (match Eval(w, r, env, out1, fuel)
              case Halted(_, _) => Eval(w, r, env, out1, fuel)
              case Value(b, out2) => if b.BoolV? then Value(b, out2) else Halted(IllTyped, out2))
         else
           (match Eval(w, r, env, out1, fuel)
            case Halted(_, _) => Eval(w, r, env, out1, fuel)
            case Value(b, out2) => Conclude(Strict(w.ops, IsFloatOp(l, r), op, a, b), out2)))
    case Call(f, args, _) =>
      (match FindFunction(w.p, f)
       case None => Halted(Unbound, out)
       case Some(i) =>
         if |args| != |w.p[i].params| then Halted(Unbound, out)
         else
           (match EvalArgs(w, args, w.p[i].params, env, out, fuel)
            case ArgsHalted(why, out1) => Halted(why, out1)
            case Arguments(vs, out1) => CallFunction(w, i, vs, out1, fuel)))
  }

  function Conclude(r: OpResult, out: seq<Event>): ExprResult {
    match r
    case Good(v) => Value(v, out)
    case Bad(why) => Halted(why, out)
  }

  /** Left to right; each argument is converted to its parameter's type. */
  function EvalArgs(w: World, args: seq<Expr>, params: seq<Param>, env: Env, out: seq<Event>, fuel: nat): (r: ArgsResult)
    requires |args| == |params|
    ensures r.Arguments? ==> |r.vs| == |args|
    decreases fuel, 1, args
  {
    if args == [] then Arguments([], out)
    else
      match Eval(w, args[0], env, out, fuel)
      case Halted(why, out1) => ArgsHalted(why, out1)
      case Value(v, out1) =>
        match EvalArgs(w, args[1..], params[1..], env, out1, fuel)
        case ArgsHalted(why, out2) => ArgsHalted(why, out2)
        case Arguments(vs, out2) => Arguments([Convert(w.ops, v, params[0].ty)] + vs, out2)
  }

  function CallFunction(w: World, i: nat, vs: seq<Val>, out: seq<Event>, fuel: nat): ExprResult
    requires i < |w.p| && |vs| == |w.p[i].params|
    decreases fuel, 0
  {
    if fuel == 0 then Halted(Timeout, out)
    else
      match Exec(w, w.p[i].body, Bind(w.p[i].params, vs), w.p[i].ty, out, fuel - 1)
      case Normal(_, out1) => Halted(FellOff, out1)
      case Returned(v, out1) => Value(v, out1)
      case Stopped(why, out1) => Halted(why, out1)
  }

  /** `ret` is the type the enclosing function returns. */
  function Exec(w: World, s: Stmt, env: Env, ret: TType, out: seq<Event>, fuel: nat): StmtResult
    decreases fuel, 2, s
  {
    match s
    case Assign(x, t, rhs) =>
      (match Eval(w, rhs, env, out, fuel)
       case Halted(why, out1) => Stopped(why, out1)
       case Value(v, out1) =>
         Normal(env[x := if t != rhs.Type() then Convert(w.ops, v, t) else v], out1))
    case Print(e) =>
      (match Eval(w, e, env, out, fuel)
       case Halted(why, out1) => Stopped(why, out1)
       case Value(v, out1) =>
         match Shown(w.ops, e.Type(), v)
         case None => Stopped(IllTyped, out1)
         case Some(event) => Normal(env, out1 + [event]))
    case Return(e) =>
      (match Eval(w, e, env, out, fuel)
       case Halted(why, out1) => Stopped(why, out1)
       case Value(v, out1) => StmtResult.Returned(Convert(w.ops, v, ret), out1))
    case CallStmt(e) =>
      (match Eval(w, e, env, out, fuel)
       case Halted(why, out1) => Stopped(why, out1)
       case Value(_, out1) => Normal(env, out1))
    case Block(ss) =>
      (match ExecSeq(w, ss, env, ret, out, fuel)
       case Normal(env1, out1) => Normal(Restrict(env1, env.Keys), out1)
       case Returned(v, out1) => StmtResult.Returned(v, out1)
       case Stopped(why, out1) => Stopped(why, out1))
    case If(c, thn, els) =>
      (match Eval(w, c, env, out, fuel)
       case Halted(why, out1) => Stopped(why, out1)
       case Value(v, out1) =>
         if !v.BoolV? then Stopped(IllTyped, out1)
         else if v.b then Exec(w, thn, env, ret, out1, fuel)
         else if els.Some? then Exec(w, els.value, env, ret, out1, fuel)
         else Normal(env, out1))
    case While(c, body) =>
      if fuel == 0 then Stopped(Timeout, out)
      else
        (match Eval(w, c, env, out, fuel)
         case Halted(why, out1) => Stopped(why, out1)
         case Value(v, out1) =>
           if !v.BoolV? then Stopped(IllTyped, out1)
           else if !v.b then Normal(env, out1)
           else
             match Exec(w, body, env, ret, out1, fuel)
             case Normal(env1, out2) => Exec(w, s, Restrict(env1, env.Keys), ret, out2, fuel - 1)
             case Returned(v, out2) => StmtResult.Returned(v, out2)
             case Stopped(why, out2) => Stopped(why, out2))
    case DoWhile(body, c) =>
      if fuel == 0 then Stopped(Timeout, out)
      else
        (match Exec(w, body, env, ret, out, fuel)
         case Returned(v, out1) => StmtResult.Returned(v, out1)
         case Stopped(why, out1) => Stopped(why, out1)
         case Normal(env1, out1) =>
           match Eval(w, c, env1, out1, fuel)
           case Halted(why, out2) => Stopped(why, out2)
           case Value(v, out2) =>
             if !v.BoolV? then Stopped(IllTyped, out2)
             else if !v.b then Normal(env1, out2)
             else Exec(w, s, Restrict(env1, env.Keys), ret, out2, fuel - 1))
  }

  function ExecSeq(w: World, ss: seq<Stmt>, env: Env, ret: TType, out: seq<Event>, fuel: nat): StmtResult
    decreases fuel, 2, ss
  {
    if ss == [] then Normal(env, out)
    else
      match Exec(w, ss[0], env, ret, out, fuel)
      case Normal(env1, out1) => ExecSeq(w, ss[1..], env1, ret, out1, fuel)
      case Returned(v, out1) => StmtResult.Returned(v, out1)
      case Stopped(why, out1) => Stopped(why, out1)
  }
}
