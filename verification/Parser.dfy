/** The parser as it is written: methods that advance a current token over a scanner with one slot
    for a token pushed back, keep two symbol tables in place and raise flags.

    Every method is proved to do to its state what its function in `Parsing` does, so the theorems
    about those functions (soundness, completeness, round trips) are theorems about these methods.
    That the methods terminate and never use a missing node is part of their verification. */
module Parser {
  import opened Wrappers
  import opened Ast
  import opened Parsing
  import Lexing
  import L = Lexer
  import T = Tokens

  lemma ToksCons(t: Lexing.Token, r: seq<Lexing.Token>)
    ensures Lexing.Toks([t] + r) == [t.tok] + Lexing.Toks(r)
    ensures Lexing.Toks([]) == []
  {
  }

  /** What a level parses, given what the next tighter one did. */
  lemma LevelEquation(k: FloatReader, s: PState, level: nat)
    requires level < 6
    ensures var l := ParseLevel(k, s, level + 1);
      ParseLevel(k, s, level) ==
        if l.e.None? || !At(l.s, LevelToken(level)) then l
        else Combine(level, Current(l.s).lexeme, l.e.value, ParseLevel(k, Parsing.Next(l.s), level))
    ensures var l := ParseLevel(k, s, level + 1);
      |l.s.rest| <= |s.rest| && (l.e.Some? && At(l.s, LevelToken(level)) ==> |Parsing.Next(l.s).rest| < |s.rest|)
  {
  }

  lemma Operators()
    ensures LevelToken(0) == T.LOR && LevelToken(1) == T.LAND && LevelToken(2) == T.CMP_EQ && LevelToken(3) == T.CMP
    ensures LevelToken(4) == T.ADD && LevelToken(5) == T.MUL
  {
  }

  lemma UnaryEquation(k: FloatReader, s: PState)
    ensures ParseLevel(k, s, 6) == ParseUnary(k, s)
    ensures ParseUnary(k, s) ==
      if At(s, T.ADD) || At(s, T.NOT) then
        var r := ParseUnary(k, Parsing.Next(s));
        if r.e.None? || !UnaryFits(Current(s).ty, r.e.value.Type()) then ExprP(None, Parsing.Error(r.s))
        else ExprP(Some(Unary(UnaryOperator(Current(s).lexeme), r.e.value)), r.s)
      else ParseFactor(k, s)
  {
  }

  lemma ParamsEquation(s: PState, ps: seq<Param>)
    ensures !At(s, T.TYPE) || !At(Parsing.Next(s), T.SYMBOL) ==> ParseParams(s, ps).s.scope == s.scope
    ensures var s2 := Parsing.Next(Parsing.Next(s));
      At(s, T.TYPE) && At(Parsing.Next(s), T.SYMBOL) ==>
        var p := Param(Current(Parsing.Next(s)).lexeme, FromString(Current(s).lexeme));
        if At(s2, T.COMMA) then ParseParams(s, ps) == ParseParams(Parsing.Next(s2), ps + [p])
        else ParseParams(s, ps).s.scope == s.scope
  {
    hide FromString, Parsing.Next, Current;
    NextKeeps(s);
    NextKeeps(Parsing.Next(s));
    NextKeeps(Parsing.Next(Parsing.Next(s)));
  }

  lemma NextKeeps(s: PState)
    ensures Parsing.Next(s).scope == s.scope && |Parsing.Next(s).rest| <= |s.rest|
    ensures At(s, T.TYPE) ==> |Parsing.Next(s).rest| < |s.rest|
  {
  }

  lemma {:induction false} ParamsKeepScope(s: PState, ps: seq<Param>)
    ensures ParseParams(s, ps).s.scope == s.scope
    decreases |s.rest|
  {
    hide FromString, Current, Parsing.Next, Advances;
    ParamsEquation(s, ps);
    NextKeeps(s);
    NextKeeps(Parsing.Next(s));
    NextKeeps(Parsing.Next(Parsing.Next(s)));
    if At(s, T.TYPE) && At(Parsing.Next(s), T.SYMBOL) {
      var s2 := Parsing.Next(Parsing.Next(s));
      var p := Param(Current(Parsing.Next(s)).lexeme, FromString(Current(s).lexeme));
      if At(s2, T.COMMA) {
        ParamsKeepScope(Parsing.Next(s2), ps + [p]);
      }
    }
  }

  /** Reading a function whose name and parameters have been read. */
  function AfterSignature(k: FloatReader, s: PState, name: string, ps: seq<Param>): FunctionP {
    if !At(s, T.COLON) then FunctionP(None, Diagnose(s))
    else
      var s2 := Parsing.Next(s);
      if !At(s2, T.TYPE) then FunctionP(None, Diagnose(s2))
      else
        var t := FromString(Current(s2).lexeme);
        var s3 := if t == UNDEFINED then Parsing.Next(Diagnose(s2)) else Parsing.Next(s2);
        var b := ParseStatement(k, s3.(funcs := Insert(s3.funcs, name, t)));
        if b.st.None? then FunctionP(None, b.s)
        else FunctionP(Some(FunctionDef(name, ps, b.st.value, t)), b.s)
  }

  lemma FunctionEquation(k: FloatReader, s: PState)
    ensures var s1 := Parsing.Next(s.(scope := map[]));
      var a := ParseSignature(Parsing.Next(s1));
      ParseFunction(k, s) ==
        if !At(s1, T.SYMBOL) then FunctionP(None, Diagnose(s1))
        else AfterSignature(k, a.s, Current(s1).lexeme, a.ps)
  {
    hide ParseSignature, ParseStatement, FromString, Insert;
  }

  class Parser {
    const lexer: L.Lexer
    const read: FloatReader
    var current: Lexing.Token
    var scope: Table
    var funcs: Table
    var isError: bool
    /** Has any message been printed? */
    ghost var diagnosed: bool

    ghost predicate Valid()
      reads this, lexer
    {
      && lexer.Valid()
      && (L.IsEnd(current) ==> current.tok == T.END_OF_FILE && lexer.Remaining() == [])
    }

    /** The current token and all that follow: a token pushed back comes first. */
    ghost function Rest(): seq<T.Tok>
      reads this, lexer
      requires Valid()
    {
      if L.IsEnd(current) then [] else [current.tok] + Lexing.Toks(lexer.Remaining())
    }

    ghost function State(): PState
      reads this, lexer
      requires Valid()
    {
      PState(Rest(), scope, funcs, isError, diagnosed)
    }

    constructor (file: string, floats: FloatReader)
      ensures Valid() && fresh(lexer) && read == floats
      ensures lexer.Remaining() == Lexing.LexAll(file, Lexing.START) && L.IsEnd(lexer.saved)
      ensures scope == map[] && funcs == map[] && !isError && !diagnosed
      ensures lexer.text == file && current.tok == T.Tok(T.ERROR_TOKEN, "")
    {
      lexer := new L.Lexer(file);
      read, scope, funcs, isError, diagnosed := floats, map[], map[], false, false;
      current := Lexing.Token(T.Tok(T.ERROR_TOKEN, ""), 0, 0);
    }

    // ----- tokens -----

    /** The kind of the current token agrees with the abstract state. */
    lemma CurrentIs()
      requires Valid()
      ensures Current(State()) == current.tok && State().scope == scope
      ensures State().rest != [] <==> !L.IsEnd(current)
    {
    }

    method Next() returns (t: Lexing.Token)
      requires Valid()
      modifies this`current, lexer
      ensures Valid() && t == current && L.IsEnd(lexer.saved)
      ensures State() == Parsing.Next(old(State())) && Current(State()) == t.tok
      ensures old(lexer.Remaining()) == (if L.IsEnd(t) then [] else [t]) + lexer.Remaining()
    {
      hide Lexing.LexAll, Lexing.Toks, L.Lexer.Remaining, L.Lexer.Valid;
      ghost var before := lexer.Remaining();
      ghost var start := current;
      current := lexer.Lex();
      t := current;
      ToksCons(start, before);
      ToksCons(current, lexer.Remaining());
    }

    /** Look at the token after the current one: read it, push it back, restore the current one.
        The state is as before, and the slot was empty when the token was pushed back.  At the end
        of the file, pushing the end back leaves the slot empty, which comes to the same. */
    method Peek() returns (lookup: Lexing.Token)
      requires Valid()
      modifies this`current, lexer
      ensures Valid() && State() == old(State()) && current == old(current)
      ensures lookup.tok == Current(Parsing.Next(State()))
    {
      hide Lexing.LexAll, Lexing.Toks, L.Lexer.Remaining;
      ghost var before := lexer.Remaining();
      var tmp := current;
      lookup := Next();
      lexer.Unlex(lookup);
      current := tmp;
      Restored(tmp, lookup, before, old(State()));
    }

    /** The remaining tokens are those from before the look-ahead. */
    lemma Restored(tmp: Lexing.Token, lookup: Lexing.Token, before: seq<Lexing.Token>, s: PState)
      requires Valid() && current == tmp
      requires s == PState(if L.IsEnd(tmp) then [] else [tmp.tok] + Lexing.Toks(before), scope, funcs, isError, diagnosed)
      requires lexer.Remaining() == before
      ensures State() == s
    {
    }

    method Is(t: Lexing.Token, expected: T.TokenType, suppress: bool) returns (r: bool)
      requires Valid()
      modifies this`diagnosed
      ensures Valid() && r == (t.tok.ty == expected)
      ensures State() == if !r && !suppress then Diagnose(old(State())) else old(State())
    {
      if t.tok.ty != expected {
        if !suppress {
          diagnosed := true;
        }
        return false;
      }
      return true;
    }

    method Error()
      requires Valid()
      modifies this`isError, this`diagnosed
      ensures Valid() && State() == Parsing.Error(old(State()))
    {
      isError, diagnosed := true, true;
    }

    method SkipSemicolon()
      requires Valid()
      modifies this`current, lexer
      ensures Valid() && State() == NextIf(old(State()), T.SEMICOLON)
    {
      CurrentIs();
      if current.tok.ty == T.SEMICOLON {
        var _ := Next();
      }
    }

    // ----- expressions -----

    method Expression() returns (e: Option<Expr>)
      requires Valid()
      modifies this, lexer
      ensures Valid() && ExprP(e, State()) == ParseExpression(read, old(State()))
      decreases |State().rest|, 13
    {
      var t := Next();
      if t.tok.ty == T.EOF_TOKEN {
        Error();
        return None;
      }
      e := Lor();
    }

    method Lor() returns (e: Option<Expr>)
      requires Valid()
      modifies this, lexer
      ensures Valid() && ExprP(e, State()) == ParseLevel(read, old(State()), 0)
      decreases |State().rest|, 12
    {
      hide State, Rest, Valid, ParseLevel, Parsing.Next, BinaryOperator, Expr.Type, Advances, LevelToken, L.Lexer.Remaining,
        L.Lexer.Valid, L.IsEnd;
      LevelEquation(read, State(), 0);
      Operators();
      var lhs := Land();
      if lhs == None { return None; }
      CurrentIs();
      var isOperator := Is(current, T.LOR, true);
      if isOperator {
        var op := current.tok.lexeme;
        var _ := Next();
        var rhs := Lor();
        if rhs == None {
          Error();
          return None;
        }
        if lhs.value.Type() != BOOL || rhs.value.Type() != BOOL {
          Error();
          return None;
        }
        return Some(Binary(BOOL, BinaryOperator(op), lhs.value, rhs.value));
      }
      return lhs;
    }

    method Land() returns (e: Option<Expr>)
      requires Valid()
      modifies this, lexer
      ensures Valid() && ExprP(e, State()) == ParseLevel(read, old(State()), 1)
      decreases |State().rest|, 11
    {
      hide State, Rest, Valid, ParseLevel, Parsing.Next, BinaryOperator, Expr.Type, Advances, LevelToken, L.Lexer.Remaining,
        L.Lexer.Valid, L.IsEnd;
      LevelEquation(read, State(), 1);
      Operators();
      var lhs := CmpEq();
      if lhs == None { return None; }
      CurrentIs();
      var isOperator := Is(current, T.LAND, true);
      if isOperator {
        var op := current.tok.lexeme;
        var _ := Next();
        var rhs := Land();
        if rhs == None {
          Error();
          return None;
        }
        if lhs.value.Type() != BOOL || rhs.value.Type() != BOOL {
          Error();
          return None;
        }
        return Some(Binary(BOOL, BinaryOperator(op), lhs.value, rhs.value));
      }
      return lhs;
    }

    method CmpEq() returns (e: Option<Expr>)
      requires Valid()
      modifies this, lexer
      ensures Valid() && ExprP(e, State()) == ParseLevel(read, old(State()), 2)
      decreases |State().rest|, 10
    {
      hide State, Rest, Valid, ParseLevel, Parsing.Next, BinaryOperator, Expr.Type, Advances, LevelToken, L.Lexer.Remaining,
        L.Lexer.Valid, L.IsEnd;
      LevelEquation(read, State(), 2);
      Operators();
      var lhs := Cmp();
      if lhs == None { return None; }
      CurrentIs();
      var isOperator := Is(current, T.CMP_EQ, true);
      if isOperator {
        var op := current.tok.lexeme;
        var _ := Next();
        var rhs := CmpEq();
        if rhs == None {
          Error();
          return None;
        }
        return Some(Binary(BOOL, BinaryOperator(op), lhs.value, rhs.value));
      }
      return lhs;
    }

    method Cmp() returns (e: Option<Expr>)
      requires Valid()
      modifies this, lexer
      ensures Valid() && ExprP(e, State()) == ParseLevel(read, old(State()), 3)
      decreases |State().rest|, 9
    {
      hide State, Rest, Valid, ParseLevel, Parsing.Next, BinaryOperator, Expr.Type, Advances, LevelToken, L.Lexer.Remaining,
        L.Lexer.Valid, L.IsEnd;
      LevelEquation(read, State(), 3);
      Operators();
      var lhs := Additive();
      if lhs == None { return None; }
      CurrentIs();
      var isOperator := Is(current, T.CMP, true);
      if isOperator {
        var op := current.tok.lexeme;
        var _ := Next();
        var rhs := Cmp();
        if rhs == None {
          Error();
          return None;
        }
        if lhs.value.Type() == BOOL || rhs.value.Type() == BOOL {
          Error();
          return None;
        }
        return Some(Binary(BOOL, BinaryOperator(op), lhs.value, rhs.value));
      }
      return lhs;
    }

    method Additive() returns (e: Option<Expr>)
      requires Valid()
      modifies this, lexer
      ensures Valid() && ExprP(e, State()) == ParseLevel(read, old(State()), 4)
      decreases |State().rest|, 8
    {
      hide State, Rest, Valid, ParseLevel, ParseUnary, Parsing.Next, Current, Combine, Advances, LevelToken,
        Expr.Type, L.Lexer.Remaining, L.Lexer.Valid, L.IsEnd;
      LevelEquation(read, State(), 4);
      Operators();
      var lhs := Multiplicative();
      if lhs == None { return None; }
      CurrentIs();
      ghost var s := State();
      var isOperator := Is(current, T.ADD, true);
      if isOperator {
        var op := current.tok.lexeme;
        var _ := Next();
        assert State() == Parsing.Next(s);
        var rhs := Additive();
        e := Arithmetic(4, op, lhs.value, rhs);
        return;
      }
      return lhs;
    }

    /** The node of `+`, `-`, `*` or `/`: no operand may be a bool, and one float makes the result
        a float. */
    method Arithmetic(ghost level: nat, op: string, lhs: Expr, rhs: Option<Expr>) returns (e: Option<Expr>)
      requires Valid() && (level == 4 || level == 5)
      modifies this`isError, this`diagnosed
      ensures Valid() && ExprP(e, State()) == Combine(level, op, lhs, ExprP(rhs, old(State())))
    {
      hide State, Rest, Valid, BinaryOperator, Expr.Type, L.Lexer.Remaining,
        L.Lexer.Valid, L.IsEnd;
      if rhs == None {
        Error();
        return None;
      }
      if lhs.Type() == BOOL || rhs.value.Type() == BOOL {
        Error();
        return None;
      }
      var ty := INTEGER;
      if lhs.Type() == FLOAT || rhs.value.Type() == FLOAT {
        ty := FLOAT;
      }
      return Some(Binary(ty, BinaryOperator(op), lhs, rhs.value));
    }

    method Multiplicative() returns (e: Option<Expr>)
      requires Valid()
      modifies this, lexer
      ensures Valid() && ExprP(e, State()) == ParseLevel(read, old(State()), 5)
      decreases |State().rest|, 7
    {
      hide State, Rest, Valid, ParseLevel, ParseUnary, Parsing.Next, Current, Combine, Advances, LevelToken,
        Expr.Type, L.Lexer.Remaining, L.Lexer.Valid, L.IsEnd;
      LevelEquation(read, State(), 5);
      Operators();
      var lhs := UnaryExpr();
      if lhs == None { return None; }
      CurrentIs();
      var isOperator := Is(current, T.MUL, true);
      if isOperator {
        var op := current.tok.lexeme;
        var _ := Next();
        var rhs := Multiplicative();
        e := Arithmetic(5, op, lhs.value, rhs);
        return;
      }
      return lhs;
    }

    method UnaryExpr() returns (e: Option<Expr>)
      requires Valid()
      modifies this, lexer
      ensures Valid() && ExprP(e, State()) == ParseLevel(read, old(State()), 6)
      decreases |State().rest|, 3
    {
      hide State, Rest, Valid, ParseLevel, ParseFactor, ParseUnary, Parsing.Next, Expr.Type, L.Lexer.Remaining,
        L.Lexer.Valid, L.IsEnd;
      UnaryEquation(read, State());
      CurrentIs();
      var isSign := Is(current, T.ADD, true);
      var isNot := Is(current, T.NOT, true);
      if isSign || isNot {
        var t := current;
        var _ := Next();
        UnaryEquation(read, State());
        var exp := UnaryExpr();
        if exp == None {
          Error();
          return None;
        }
        if t.tok.ty == T.NOT && exp.value.Type() != BOOL {
          Error();
          return None;
        }
        if t.tok.ty == T.ADD && exp.value.Type() == BOOL {
          Error();
          return None;
        }
        return Some(Unary(UnaryOperator(t.tok.lexeme), exp.value));
      }
      e := Factor();
    }

    method Factor() returns (e: Option<Expr>)
      requires Valid()
      modifies this, lexer
      ensures Valid() && ExprP(e, State()) == ParseFactor(read, old(State()))
      decreases |State().rest|, 2
    {
      CurrentIs();
      var isOpen := Is(current, T.PL, true);
      if isOpen {
        var _ := Next();
        var expr := Lor();
        CurrentIs();
        var isClose := Is(current, T.PR, false);
        if !isClose { return None; }
        var _ := Next();
        return expr;
      }
      var isSymbol := Is(current, T.SYMBOL, true);
      if isSymbol {
        var lookup := Peek();
        var isCall := Is(lookup, T.PL, true);
        if isCall {
          e := Funcall();
          return;
        }
        e := Variable();
        return;
      }
      e := Constant();
    }

    method Constant() returns (e: Option<Expr>)
      requires Valid()
      modifies this, lexer
      ensures Valid() && ExprP(e, State()) == ParseConstant(read, old(State()))
    {
      CurrentIs();
      match current.tok.ty
      case BOOL => e := Boolean();
      case INTEGER => e := Intgr();
      case FLOAT => e := Flt();
      case _ => return None;
    }

    method Boolean() returns (e: Option<Expr>)
      requires Valid() && current.tok.ty == T.BOOL
      modifies this, lexer
      ensures Valid() && ExprP(e, State()) == ParseConstant(read, old(State()))
    {
      CurrentIs();
      var value := current.tok.lexeme;
      var _ := Next();
      return Some(if value == "True" then BoolLit(true) else BoolLit(false));
    }

    method Intgr() returns (e: Option<Expr>)
      requires Valid() && current.tok.ty == T.INTEGER
      modifies this, lexer
      ensures Valid() && ExprP(e, State()) == ParseConstant(read, old(State()))
    {
      CurrentIs();
      var value := current.tok.lexeme;
      var _ := Next();
      match ReadInt(value)
      case Some(n) => return Some(IntLit(n));
      case None =>
        Error();
        return None;
    }

    method Flt() returns (e: Option<Expr>)
      requires Valid() && current.tok.ty == T.FLOAT
      modifies this, lexer
      ensures Valid() && ExprP(e, State()) == ParseConstant(read, old(State()))
    {
      CurrentIs();
      var value := current.tok.lexeme;
      var _ := Next();
      match read(value)
      case Some(f) => return Some(FloatLit(f));
      case None =>
        Error();
        return None;
    }

    /** `scope[name]`: enters a name that is not there. */
    method ScopeAt(name: string) returns (t: Option<TType>)
      requires Valid()
      modifies this`scope
      ensures Valid() && t == Found(old(State()).scope, name)
      ensures State() == old(State()).(scope := Touch(old(State()).scope, name))
    {
      if name !in scope {
        scope := scope[name := None];
      }
      t := scope[name];
    }

    /** `funcs[name]`. */
    method FuncAt(name: string) returns (t: Option<TType>)
      requires Valid()
      modifies this`funcs
      ensures Valid() && t == Found(old(State()).funcs, name)
      ensures State() == old(State()).(funcs := Touch(old(State()).funcs, name))
    {
      if name !in funcs {
        funcs := funcs[name := None];
      }
      t := funcs[name];
    }

    /** `scope.insert`: an entry that is there already stays. */
    method Declare(name: string, ty: TType)
      requires Valid()
      modifies this`scope
      ensures Valid() && State() == old(State()).(scope := Insert(old(State()).scope, name, ty))
    {
      if name !in scope {
        scope := scope[name := Some(ty)];
      }
    }

    /** `funcs.insert`. */
    method Register(name: string, ty: TType)
      requires Valid()
      modifies this`funcs
      ensures Valid() && State() == old(State()).(funcs := Insert(old(State()).funcs, name, ty))
    {
      if name !in funcs {
        funcs := funcs[name := Some(ty)];
      }
    }

    method Variable() returns (e: Option<Expr>)
      requires Valid() && !L.IsEnd(current)
      modifies this, lexer
      ensures Valid() && ExprP(e, State()) == ParseVar(old(State()))
    {
      hide State, Rest, Valid, L.Lexer.Remaining,
        L.Lexer.Valid, L.IsEnd;
      CurrentIs();
      var name := current.tok.lexeme;
      var _ := Next();
      var t := ScopeAt(name);
      if t.Some? { return Some(Var(name, t.value)); }
      Error();
      return Some(Var(name, UNDEFINED));
    }

    method Funcall() returns (e: Option<Expr>)
      requires Valid() && !L.IsEnd(current)
      modifies this, lexer
      ensures Valid() && ExprP(e, State()) == ParseFuncall(read, old(State()))
      decreases |State().rest|, 1
    {
      hide State, Rest, Valid, L.Lexer.Remaining,
        L.Lexer.Valid, L.IsEnd;
      CurrentIs();
      var name := current.tok.lexeme;
      var func := FuncAt(name);
      if func == None {
        Error();
        return None;
      }
      var args := FuncallArgs();
      var _ := Next();
      return Some(Call(name, args, func.value));
    }

    method FuncallArgs() returns (args: seq<Expr>)
      requires Valid() && !L.IsEnd(current)
      modifies this, lexer
      ensures Valid() && ArgsP(args, State()) == ParseArgs(read, old(State()))
      decreases |State().rest|, 0
    {
      args := [];
      var _ := Next();
      ghost var s1 := State();
      var peek := Peek();
      var isClose := Is(peek, T.PR, true);
      if isClose {
        var _ := Next();
        return;
      }
      while true
        invariant Valid() && |Rest()| <= |s1.rest|
        invariant ParseArgsLoop(read, State(), args) == ParseArgsLoop(read, s1, [])
        decreases |State().rest|
      {
        CurrentIs();
        isClose := Is(current, T.PR, true);
        if isClose { break; }
        var arg := Expression();
        if arg == None {
          Error();
          return;
        }
        args := args + [arg.value];
        CurrentIs();
        var isComma := Is(current, T.COMMA, true);
        if isComma { continue; }
        isClose := Is(current, T.PR, false);
        if isClose { break; } else { return; }
      }
    }

    // ----- statements -----

    method Statement() returns (st: Option<Stmt>)
      requires Valid()
      modifies this, lexer
      ensures Valid() && StmtP(st, State()) == ParseStatement(read, old(State()))
      decreases |State().rest|, 11
    {
      hide State, Rest, Valid, Parsing.Next, Advances, NextIf, Parsing.Error, L.Lexer.Remaining,
        L.Lexer.Valid, L.IsEnd;
      CurrentIs();
      match current.tok.ty
      case EOF_TOKEN =>
        Error();
        return None;
      case BL => st := BlockStatement();
      case IF => st := IfStatement();
      case WHILE => st := WhileStmt();
      case DO => st := DoWhileStmt();
      case TYPE =>
        st := Declaration();
        SkipSemicolon();
      case SYMBOL =>
        var lookup := Peek();
        var isCall := Is(lookup, T.PL, true);
        if isCall {
          st := CallStatement();
          SkipSemicolon();
          return;
        }
        st := Assignment();
        SkipSemicolon();
      case IO_PRINT =>
        st := IoPrint();
        SkipSemicolon();
      case RETURN =>
        st := Ret();
        SkipSemicolon();
      case _ => return None;
    }

    method CallStatement() returns (st: Option<Stmt>)
      requires Valid() && !L.IsEnd(current)
      modifies this, lexer
      ensures Valid() && StmtP(st, State()) == ParseCallStatement(read, old(State()))
    {
      var node := Funcall();
      if node == None { return None; }
      return Some(CallStmt(node.value));
    }

    method Ret() returns (st: Option<Stmt>)
      requires Valid()
      modifies this, lexer
      ensures Valid() && StmtP(st, State()) == ParseReturn(read, old(State()))
    {
      hide State, Rest, Valid, L.Lexer.Remaining,
        L.Lexer.Valid, L.IsEnd;
      var expr := Expression();
      if expr == None {
        Error();
        return None;
      }
      return Some(Return(expr.value));
    }

    method IoPrint() returns (st: Option<Stmt>)
      requires Valid()
      modifies this, lexer
      ensures Valid() && StmtP(st, State()) == ParsePrint(read, old(State()))
    {
      hide State, Rest, Valid, L.Lexer.Remaining,
        L.Lexer.Valid, L.IsEnd;
      var expr := Expression();
      if expr == None {
        Error();
        return None;
      }
      return Some(Print(expr.value));
    }

    /** A condition must be a bool. */
    method Condition() returns (e: Option<Expr>)
      requires Valid()
      modifies this, lexer
      ensures Valid() && ExprP(e, State()) == ParseCondition(read, old(State()))
    {
      hide State, Rest, Valid, L.Lexer.Remaining,
        L.Lexer.Valid, L.IsEnd;
      e := Expression();
      if e == None { return None; }
      if e.value.Type() != BOOL {
        Error();
        return None;
      }
    }

    method IfStatement() returns (st: Option<Stmt>)
      requires Valid()
      modifies this, lexer
      ensures Valid() && StmtP(st, State()) == ParseIf(read, old(State()))
      decreases |State().rest|, 10
    {
      hide State, Rest, Valid, ParseStatement, ParseCondition, L.Lexer.Remaining,
        L.Lexer.Valid, L.IsEnd;
      var cond := Condition();
      if cond == None { return None; }
      var trueBranch := Statement();
      if trueBranch == None { return None; }
      CurrentIs();
      var isElse := Is(current, T.ELSE, true);
      if isElse {
        var _ := Next();
        var falseBranch := Statement();
        if falseBranch == None { return None; }
        return Some(If(cond.value, trueBranch.value, falseBranch));
      }
      return Some(If(cond.value, trueBranch.value, None));
    }

    method WhileStmt() returns (st: Option<Stmt>)
      requires Valid()
      modifies this, lexer
      ensures Valid() && StmtP(st, State()) == ParseWhile(read, old(State()))
      decreases |State().rest|, 10
    {
      hide State, Rest, Valid, ParseStatement, ParseCondition, L.Lexer.Remaining,
        L.Lexer.Valid, L.IsEnd;
      var cond := Condition();
      if cond == None { return None; }
      var body := Statement();
      if body == None { return None; }
      return Some(While(cond.value, body.value));
    }

    method DoWhileStmt() returns (st: Option<Stmt>)
      requires Valid() && State().rest != []
      modifies this, lexer
      ensures Valid() && StmtP(st, State()) == ParseDoWhile(read, old(State()))
      decreases |State().rest|, 10
    {
      hide State, Rest, Valid, ParseStatement, ParseCondition, L.Lexer.Remaining,
        L.Lexer.Valid, L.IsEnd;
      var _ := Next();
      var body := Statement();
      if body == None { return None; }
      CurrentIs();
      var isWhile := Is(current, T.WHILE, false);
      if !isWhile { return None; }
      var cond := Condition();
      if cond == None { return None; }
      return Some(DoWhile(body.value, cond.value));
    }

    method BlockStatement() returns (st: Option<Stmt>)
      requires Valid() && State().rest != []
      modifies this, lexer
      ensures Valid() && StmtP(st, State()) == ParseBlock(read, old(State()))
      decreases |State().rest|, 10
    {
      hide State, Rest, Valid, ParseStatement, L.Lexer.Remaining,
        L.Lexer.Valid, L.IsEnd;
      var _ := Next();
      ghost var s1 := State();
      var statements: seq<Stmt> := [];
      CurrentIs();
      var isClose := Is(current, T.BR, true);
      while !isClose
        invariant Valid() && |State().rest| <= |s1.rest| && (isClose <==> At(State(), T.BR))
        invariant ParseStatements(read, State(), statements) == ParseStatements(read, s1, [])
        decreases |State().rest|, !isClose
      {
        CurrentIs();
        if current.tok.ty == T.EOF_TOKEN {
          isClose := Is(current, T.BR, false);
          return None;
        }
        var node := Statement();
        if node == None { return None; }
        statements := statements + [node.value];
        CurrentIs();
        isClose := Is(current, T.BR, true);
      }
      var _ := Next();
      return Some(Block(statements));
    }

    method Assignment() returns (st: Option<Stmt>)
      requires Valid()
      modifies this, lexer
      ensures Valid() && StmtP(st, State()) == ParseAssignment(read, old(State()))
    {
      hide State, Rest, Valid, ParseExpression, L.Lexer.Remaining,
        L.Lexer.Valid, L.IsEnd;
      CurrentIs();
      var name := current.tok.lexeme;
      var lhs := ScopeAt(name);
      if lhs == None {
        Error();
        return None;
      }
      var t := Next();
      var isAssign := Is(t, T.ASSIGN, false);
      if !isAssign { return None; }
      var rhs := Expression();
      if rhs == None {
        Error();
        return None;
      }
      if lhs.value == BOOL && lhs.value != rhs.value.Type() {
        Error();
        return None;
      }
      if lhs.value != BOOL && rhs.value.Type() == BOOL {
        Error();
        return None;
      }
      return Some(Assign(name, lhs.value, rhs.value));
    }

    method Declaration() returns (st: Option<Stmt>)
      requires Valid()
      modifies this, lexer
      ensures Valid() && StmtP(st, State()) == ParseDeclaration(read, old(State()))
    {
      hide State, Rest, Valid, ParseExpression, L.Lexer.Remaining,
        L.Lexer.Valid, L.IsEnd;
      CurrentIs();
      var ty := FromString(current.tok.lexeme);
      var t := Next();
      var isSymbol := Is(t, T.SYMBOL, false);
      if !isSymbol { return None; }
      var name := t.tok.lexeme;
      CurrentIs();
      if name in scope {
        Error();
        return None;
      }
      t := Next();
      var isAssign := Is(t, T.ASSIGN, false);
      if !isAssign { return None; }
      var rhs := Expression();
      if rhs == None {
        Error();
        return None;
      }
      if ty == BOOL && ty != rhs.value.Type() {
        Error();
        return None;
      }
      if ty != BOOL && rhs.value.Type() == BOOL {
        Error();
        return None;
      }
      Declare(name, ty);
      return Some(Assign(name, ty, rhs.value));
    }

    // ----- functions and files -----

    method FunctionArgs() returns (args: seq<Param>)
      requires Valid()
      modifies this`current, this`diagnosed, lexer
      ensures Valid() && ParamsP(args, State()) == ParseParams(old(State()), [])
    {
      hide State, Rest, Valid, Parsing.Next, FromString, L.Lexer.Remaining,
        L.Lexer.Valid, L.IsEnd;
      args := [];
      ghost var s := State();
      while true
        invariant Valid() && ParseParams(State(), args) == ParseParams(s, [])
        decreases |State().rest|
      {
        CurrentIs();
        var isClose := Is(current, T.PR, true);
        if isClose { break; }
        var isType := Is(current, T.TYPE, false);
        if !isType { return args; }
        var ty := current;
        var variable := Next();
        var isSymbol := Is(variable, T.SYMBOL, false);
        if !isSymbol { return args; }
        args := args + [Param(variable.tok.lexeme, FromString(ty.tok.lexeme))];
        var _ := Next();
        CurrentIs();
        var isComma := Is(current, T.COMMA, true);
        if isComma {
          var _ := Next();
          continue;
        }
        isClose := Is(current, T.PR, false);
        if isClose { break; } else { return args; }
      }
      var _ := Next();
    }

    /** The parameters in parentheses, if there are any. */
    method Signature() returns (args: seq<Param>)
      requires Valid() && State().scope == map[]
      modifies this`current, this`diagnosed, this`scope, lexer
      ensures Valid() && ParamsP(args, State()) == ParseSignature(old(State()))
    {
      hide State, Rest, Valid, L.Lexer.Remaining,
        L.Lexer.Valid, L.IsEnd;
      args := [];
      CurrentIs();
      var isOpen := Is(current, T.PL, true);
      if isOpen {
        var _ := Next();
        args := FunctionArgs();
        ParamsKeepScope(Parsing.Next(old(State())), []);
        EnterParams(args);
      }
    }

    /** The parameters enter the scope in order; of two with one name the first counts. */
    method EnterParams(args: seq<Param>)
      requires Valid() && State().scope == map[]
      modifies this`scope
      ensures Valid() && State() == old(State()).(scope := ParamScope(args))
    {
      hide State, Rest, Valid, L.Lexer.Remaining,
        L.Lexer.Valid, L.IsEnd;
      ghost var s := State();
      assert s == s.(scope := ParamScope(args[..0]));
      for i := 0 to |args|
        invariant Valid() && State() == s.(scope := ParamScope(args[..i]))
      {
        assert args[..i + 1][..i] == args[..i];
        Declare(args[i].name, args[i].ty);
      }
      assert args[..|args|] == args;
    }

    method ClearScope()
      requires Valid()
      modifies this`scope
      ensures Valid() && State() == old(State()).(scope := map[]) && scope == map[]
    {
      scope := map[];
    }

    method Warn()
      requires Valid()
      modifies this`diagnosed
      ensures Valid() && State() == Diagnose(old(State()))
    {
      diagnosed := true;
    }

    method FunctionDefinition() returns (def: Option<FunctionDef>)
      requires Valid()
      modifies this, lexer
      ensures Valid() && FunctionP(def, State()) == ParseFunction(read, old(State()))
    {
      hide State, Rest, Valid, ParseFunction, AfterSignature, ParseSignature, Parsing.Next, L.Lexer.Remaining,
        L.Lexer.Valid, L.IsEnd;
      FunctionEquation(read, State());
      ClearScope();
      var t := Next();
      var ok := Is(t, T.SYMBOL, false);
      if !ok { return None; }
      var name := t.tok.lexeme;
      t := Next();
      CurrentIs();
      var args := Signature();
      def := FunctionBody(name, args);
    }

    /** The colon, the type of the result and the body. */
    method FunctionBody(name: string, args: seq<Param>) returns (def: Option<FunctionDef>)
      requires Valid()
      modifies this, lexer
      ensures Valid() && FunctionP(def, State()) == AfterSignature(read, old(State()), name, args)
    {
      hide State, Rest, Valid, ParseStatement, Parsing.Next, FromString, Insert, L.Lexer.Remaining,
        L.Lexer.Valid, L.IsEnd;
      CurrentIs();
      var ok := Is(current, T.COLON, false);
      if !ok { return None; }
      var t := Next();
      ok := Is(t, T.TYPE, false);
      if !ok { return None; }
      var ty := FromString(t.tok.lexeme);
      if ty == UNDEFINED {
        Warn();
      }
      var _ := Next();
      Register(name, ty);
      var body := Statement();
      if body == None { return None; }
      return Some(FunctionDef(name, args, body.value, ty));
    }

    /** Parses the file.  The first token is read here. */
    method Parse() returns (root: Root)
      requires Valid() && L.IsEnd(lexer.saved) && scope == map[] && funcs == map[] && !isError && !diagnosed
      modifies this, lexer
      ensures Valid()
      ensures RootP(root, State()) == Parsing.Parse(read, Lexing.Toks(old(lexer.Remaining())))
    {
      hide State, Rest, Valid, ParseFunction, L.Lexer.Remaining,
        L.Lexer.Valid, L.IsEnd;
      Begin();
      ghost var s := State();
      var nodes: seq<FunctionDef> := [];
      while true
        invariant Valid() && ParseFile(read, State(), nodes) == ParseFile(read, s, [])
        decreases |State().rest|
      {
        CurrentIs();
        var t := current;
        match t.tok.ty
        case ERROR_TOKEN => return Dummy;
        case EOF_TOKEN => return Vector(nodes);
        case FUNC =>
          var def := FunctionDefinition();
          if def == None { return Dummy; }
          nodes := nodes + [def.value];
        case _ =>
          Error();
          var _ := Next();
      }
    }

    /** Read the first token. */
    method Begin()
      requires Valid() && L.IsEnd(lexer.saved) && scope == map[] && funcs == map[] && !isError && !diagnosed
      modifies this`current, lexer
      ensures Valid() && State() == StartState(Lexing.Toks(old(lexer.Remaining())))
    {
      hide Lexing.LexAll, Lexing.Toks, L.Lexer.Remaining;
      current := lexer.Lex();
      ToksCons(current, lexer.Remaining());
    }
  }

  /** Scanning and parsing a text. */
  method ParseText(text: string, floats: FloatReader) returns (root: Root, failed: bool, ghost silent: bool)
    ensures var r := Parsing.Parse(floats, Lexing.Toks(Lexing.LexAll(text, Lexing.START)));
      root == r.root && failed == r.s.isError && (silent <==> !r.s.diagnosed)
  {
    var parser := new Parser(text, floats);
    root := parser.Parse();
    failed, silent := parser.isError, !parser.diagnosed;
  }
}
