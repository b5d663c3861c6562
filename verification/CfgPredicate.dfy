/** The `cfg` predicate evaluator of non-exhaustive-check: a three-valued truth read off the tokens
    of an attribute, with `test` known to be off and every other option unknown. */
module CfgPredicate {
  import opened Prelude

  datatype Token =
    | Bool(value: bool)
    | Ident(name: string)
    | Equals
    | Str(text: string)
    | Comma
    | Group(tokens: seq<Token>)
    | Other

  datatype Truth = False | True | Unknown

  // ---------------------------------------------------------------------
  // The evaluator: it reads tokens and computes a truth as it goes
  // ---------------------------------------------------------------------

  function Of(b: bool): Truth {
    if b then True else False
  }

  /** `all` and `any` of already evaluated arguments. */
  function Combine(all: bool, values: seq<Truth>): Truth {
    if Of(!all) in values then Of(!all)
    else if Unknown in values then Unknown
    else Of(all)
  }

  function Negate(t: Truth): Truth {
    match t
    case False => True
    case True => False
    case Unknown => Unknown
  }

  /** The truth of the predicate at the front of the tokens, with the tokens after it. */
  function ParseTruth(ts: seq<Token>): (r: Option<(Truth, seq<Token>)>)
    ensures r.Some? ==> |r.value.1| < |ts| && r.value.1 == ts[|ts| - |r.value.1|..]
    decreases ts, 0
  {
    if ts == [] then None
    else if ts[0].Bool? then Some((Of(ts[0].value), ts[1..]))
    else if !ts[0].Ident? then None
    else if 1 < |ts| && ts[1].Equals? then
      if 2 < |ts| && ts[2].Str? then Some((Unknown, ts[3..])) else None
    else if 1 < |ts| && ts[1].Group? then
      match ParseTruths(ts[1].tokens)
      case None => None
      case Some(values) =>
        if ts[0].name == "all" || ts[0].name == "any" then Some((Combine(ts[0].name == "all", values), ts[2..]))
        else if ts[0].name == "not" && |values| == 1 then Some((Negate(values[0]), ts[2..]))
        else None
    else Some((if ts[0].name == "test" then False else Unknown, ts[1..]))
  }

  /** Comma-separated predicates to the end of the tokens, a trailing comma allowed. */
  function ParseTruths(ts: seq<Token>): Option<seq<Truth>>
    decreases ts, 1
  {
    if ts == [] then Some([]) else
    match ParseTruth(ts)
    case None => None
    case Some((value, rest)) =>
      if rest == [] then Some([value])
      else if !rest[0].Comma? then None
      else
        match ParseTruths(rest[1..])
        case None => None
        case Some(values) => Some([value] + values)
  }

  /** `is_cfg_disabled_without_test` on the arguments of a `cfg` attribute: one predicate, an optional
      comma, and nothing else. */
  predicate DisabledWithoutTest(ts: seq<Token>) {
    var r := ParseTruth(ts);
    r.Some? && r.value.0 == False && (r.value.1 == [] || r.value.1 == [Comma])
  }

  // ---------------------------------------------------------------------
  // Predicates and what they mean
  // ---------------------------------------------------------------------

  datatype Atom = Flag(name: string) | Pair(name: string, text: string)

  datatype Pred = Const(value: bool) | Cfg(atom: Atom) | All(args: seq<Pred>) | Any(args: seq<Pred>) | Not(arg: Pred)

  const TEST := Flag("test")

  /** The meaning of a predicate under a configuration, the finite set of options that are on. */
  predicate Holds(p: Pred, on: set<Atom>) {
    match p
    case Const(value) => value
    case Cfg(atom) => atom in on
    case All(args) => forall i :: 0 <= i < |args| ==> Holds(args[i], on)
    case Any(args) => exists i :: 0 <= i < |args| && Holds(args[i], on)
    case Not(arg) => !Holds(arg, on)
  }

  /** The truth the evaluator gives a predicate, told on the predicate itself. */
  function Eval(p: Pred): Truth
    decreases p, 1
  {
    match p
    case Const(value) => Of(value)
    case Cfg(atom) => if atom == TEST then False else Unknown
    case All(_) => Combine(true, EvalArgs(p))
    case Any(_) => Combine(false, EvalArgs(p))
    case Not(arg) => Negate(Eval(arg))
  }

  function EvalArgs(p: Pred): seq<Truth>
    requires p.All? || p.Any?
    decreases p, 0
  {
    seq(|p.args|, i requires 0 <= i < |p.args| => Eval(p.args[i]))
  }

  // ---------------------------------------------------------------------
  // Soundness and exactness
  // ---------------------------------------------------------------------

  /** A decided truth is the predicate's value in every configuration without `test`. */
  lemma {:induction false} EvalIsSound(p: Pred, on: set<Atom>)
    requires TEST !in on
    ensures Eval(p) == True ==> Holds(p, on)
    ensures Eval(p) == False ==> !Holds(p, on)
    decreases p, 1
  {
    match p
    case Const(_) =>
    case Cfg(_) =>
    case Not(arg) => EvalIsSound(arg, on);
    case All(_) => ArgsAreSound(p, on);
    case Any(_) => ArgsAreSound(p, on);
  }

  lemma {:induction false} ArgsAreSound(p: Pred, on: set<Atom>)
    requires TEST !in on && (p.All? || p.Any?)
    ensures Eval(p) == Of(p.Any?) ==> exists i :: 0 <= i < |p.args| && Holds(p.args[i], on) == p.Any?
    ensures Eval(p) == Of(p.All?) ==> forall i :: 0 <= i < |p.args| ==> Holds(p.args[i], on) == p.All?
    decreases p, 0
  {
    var values := EvalArgs(p);
    forall i | 0 <= i < |p.args|
      ensures values[i] == True ==> Holds(p.args[i], on)
      ensures values[i] == False ==> !Holds(p.args[i], on)
    {
      EvalIsSound(p.args[i], on);
    }
    assert forall i :: 0 <= i < |values| ==> values[i] in values;
  }

  /** The unknown options that occur under an even number of negations, or under an odd one. */
  function Occurs(p: Pred, even: bool): set<Atom> {
    match p
    case Const(_) => {}
    case Cfg(atom) => if even && atom != TEST then {atom} else {}
    case All(args) => set i, a | 0 <= i < |args| && a in Occurs(args[i], even) :: a
    case Any(args) => set i, a | 0 <= i < |args| && a in Occurs(args[i], even) :: a
    case Not(arg) => Occurs(arg, !even)
  }

  /** No unknown option occurs both ways. */
  predicate OnePolarity(p: Pred) {
    Occurs(p, true) !! Occurs(p, false)
  }

  /** With every option set in favour of one value, the predicate takes it unless the truth rules it
      out. */
  lemma {:induction false} Extreme(p: Pred, on: set<Atom>, b: bool)
    requires TEST !in on && Occurs(p, b) <= on && Occurs(p, !b) !! on
    ensures Eval(p) != Of(!b) ==> Holds(p, on) == b
    decreases p, 1
  {
    match p
    case Const(_) =>
    case Cfg(_) =>
    case Not(arg) => Extreme(arg, on, !b);
    case All(_) => ExtremeArgs(p, on, b);
    case Any(_) => ExtremeArgs(p, on, b);
  }

  lemma {:induction false} ExtremeArgs(p: Pred, on: set<Atom>, b: bool)
    requires (p.All? || p.Any?) && TEST !in on && Occurs(p, b) <= on && Occurs(p, !b) !! on
    ensures Eval(p) != Of(!b) ==> Holds(p, on) == b
    decreases p, 0
  {
    var values := EvalArgs(p);
    forall i | 0 <= i < |p.args| ensures values[i] != Of(!b) ==> Holds(p.args[i], on) == b {
      assert Occurs(p.args[i], b) <= Occurs(p, b) && Occurs(p.args[i], !b) <= Occurs(p, !b);
      Extreme(p.args[i], on, b);
    }
    assert forall i :: 0 <= i < |values| ==> values[i] in values;
  }

  /** Exactness: when no unknown option occurs under both an even and an odd number of negations,
      `Unknown` means both values occur, so each truth says exactly which values the predicate can take
      without `test`. */
  lemma EvalIsExact(p: Pred, b: bool)
    requires OnePolarity(p)
    ensures Eval(p) == Of(b) <==> forall on: set<Atom> :: TEST !in on ==> Holds(p, on) == b
  {
    if Eval(p) == Of(b) {
      forall on: set<Atom> | TEST !in on ensures Holds(p, on) == b {
        EvalIsSound(p, on);
      }
    } else {
      var on := Occurs(p, !b);
      TestIsKnown(p, !b);
      Extreme(p, on, !b);
      assert Holds(p, on) != b;
    }
  }

  lemma {:induction false} TestIsKnown(p: Pred, even: bool)
    ensures TEST !in Occurs(p, even)
  {
    match p
    case Const(_) =>
    case Cfg(_) =>
    case Not(arg) => TestIsKnown(arg, !even);
    case All(args) => forall i | 0 <= i < |args| { TestIsKnown(args[i], even); }
    case Any(args) => forall i | 0 <= i < |args| { TestIsKnown(args[i], even); }
  }

  /** No unknown option occurs twice. */
  ghost predicate ReadOnce(p: Pred) {
    match p
    case Const(_) => true
    case Cfg(_) => true
    case All(args) => Apart(args) && forall i :: 0 <= i < |args| ==> ReadOnce(args[i])
    case Any(args) => Apart(args) && forall i :: 0 <= i < |args| ==> ReadOnce(args[i])
    case Not(arg) => ReadOnce(arg)
  }

  ghost predicate Apart(args: seq<Pred>) {
    forall i, j :: 0 <= i < j < |args| ==> Unknowns(args[i]) !! Unknowns(args[j])
  }

  function Unknowns(p: Pred): set<Atom> {
    Occurs(p, true) + Occurs(p, false)
  }

  /** A predicate that reads no unknown option twice is one of these. */
  lemma {:induction false} ReadOnceHasOnePolarity(p: Pred)
    requires ReadOnce(p)
    ensures OnePolarity(p)
  {
    match p
    case Const(_) =>
    case Cfg(_) =>
    case Not(arg) => ReadOnceHasOnePolarity(arg);
    case All(args) => ApartHasOnePolarity(p);
    case Any(args) => ApartHasOnePolarity(p);
  }

  lemma {:induction false} ApartHasOnePolarity(p: Pred)
    requires (p.All? || p.Any?) && ReadOnce(p)
    ensures OnePolarity(p)
    decreases p, 0
  {
    forall a | a in Occurs(p, true) ensures a !in Occurs(p, false) {
      var i :| 0 <= i < |p.args| && a in Occurs(p.args[i], true);
      forall j | 0 <= j < |p.args| ensures a !in Occurs(p.args[j], false) {
        if i == j {
          ReadOnceHasOnePolarity(p.args[i]);
        } else {
          assert Unknowns(p.args[i]) !! Unknowns(p.args[j]);
          assert a in Unknowns(p.args[i]);
        }
      }
    }
  }

  /** An option that occurs both ways breaks exactness: this one always holds, and the truth is
      `Unknown`. */
  lemma RepeatedOptionIsNotExact(atom: Atom, on: set<Atom>)
    requires atom != TEST
    ensures var p := Any([Cfg(atom), Not(Cfg(atom))]); Eval(p) == Unknown && Holds(p, on) && !OnePolarity(p)
  {
    var args := [Cfg(atom), Not(Cfg(atom))];
    assert Eval(args[0]) == Unknown && Eval(args[1]) == Unknown;
    assert EvalArgs(Any(args))[0] == Unknown;
    assert Holds(args[if atom in on then 0 else 1], on);
    assert atom in Occurs(args[0], true) && atom in Occurs(args[1], false);
    assert atom in Occurs(Any(args), true) && atom in Occurs(Any(args), false);
  }

  // ---------------------------------------------------------------------
  // Reading predicates off tokens
  // ---------------------------------------------------------------------

  /** The same grammar, reading the predicate instead of its truth. */
  function ParsePred(ts: seq<Token>): (r: Option<(Pred, seq<Token>)>)
    ensures r.Some? ==> |r.value.1| < |ts| && r.value.1 == ts[|ts| - |r.value.1|..]
    decreases ts, 0
  {
    if ts == [] then None
    else if ts[0].Bool? then Some((Const(ts[0].value), ts[1..]))
    else if !ts[0].Ident? then None
    else if 1 < |ts| && ts[1].Equals? then
      if 2 < |ts| && ts[2].Str? then Some((Cfg(Pair(ts[0].name, ts[2].text)), ts[3..])) else None
    else if 1 < |ts| && ts[1].Group? then
      match ParsePreds(ts[1].tokens)
      case None => None
      case Some(args) =>
        if ts[0].name == "all" then Some((All(args), ts[2..]))
        else if ts[0].name == "any" then Some((Any(args), ts[2..]))
        else if ts[0].name == "not" && |args| == 1 then Some((Not(args[0]), ts[2..]))
        else None
    else Some((Cfg(Flag(ts[0].name)), ts[1..]))
  }

  function ParsePreds(ts: seq<Token>): Option<seq<Pred>>
    decreases ts, 1
  {
    if ts == [] then Some([]) else
    match ParsePred(ts)
    case None => None
    case Some((p, rest)) =>
      if rest == [] then Some([p])
      else if !rest[0].Comma? then None
      else
        match ParsePreds(rest[1..])
        case None => None
        case Some(ps) => Some([p] + ps)
  }

  /** Evaluating while reading is reading and then evaluating; both refuse the same tokens. */
  lemma {:induction false} ParseTruthIsEval(ts: seq<Token>)
    ensures ParseTruth(ts) == match ParsePred(ts) case None => None case Some((p, rest)) => Some((Eval(p), rest))
    decreases ts, 0
  {
    if 1 < |ts| && ts[0].Ident? && ts[1].Group? {
      ParseTruthsIsEval(ts[1].tokens);
      var args := ParsePreds(ts[1].tokens);
      if args.Some? {
        assert EvalArgs(All(args.value)) == EvalArgs(Any(args.value)) == ParseTruths(ts[1].tokens).value;
      }
    }
  }

  lemma {:induction false} ParseTruthsIsEval(ts: seq<Token>)
    ensures ParseTruths(ts).Some? <==> ParsePreds(ts).Some?
    ensures ParseTruths(ts).Some? ==> ParseTruths(ts).value == EvalArgs(All(ParsePreds(ts).value))
    decreases ts, 1
  {
    if ts != [] {
      ParseTruthIsEval(ts);
      var r := ParsePred(ts);
      if r.Some? && r.value.1 != [] && r.value.1[0].Comma? {
        ParseTruthsIsEval(r.value.1[1..]);
      }
    }
  }

  /** The tokens of a predicate, with or without trailing commas. */
  function Print(p: Pred, trailing: bool): seq<Token>
    decreases p, 1
  {
    match p
    case Const(value) => [Bool(value)]
    case Cfg(Flag(name)) => [Ident(name)]
    case Cfg(Pair(name, text)) => [Ident(name), Equals, Str(text)]
    case All(_) => [Ident("all"), Group(PrintFrom(p, 0, trailing))]
    case Any(_) => [Ident("any"), Group(PrintFrom(p, 0, trailing))]
    case Not(arg) => [Ident("not"), Group(Print(arg, trailing) + if trailing then [Comma] else [])]
  }

  /** The arguments from `i` on. */
  function PrintFrom(p: Pred, i: nat, trailing: bool): seq<Token>
    requires (p.All? || p.Any?) && i <= |p.args|
    decreases p, 0, |p.args| - i
  {
    if i == |p.args| then []
    else
      Print(p.args[i], trailing)
      + if i + 1 == |p.args| && !trailing then [] else [Comma] + PrintFrom(p, i + 1, trailing)
  }

  lemma ParseLast(ts: seq<Token>, p: Pred)
    requires ParsePred(ts) == Some((p, []))
    ensures ParsePreds(ts) == Some([p])
  {
  }

  lemma ParseNext(ts: seq<Token>, p: Pred, more: seq<Token>)
    requires ParsePred(ts) == Some((p, [Comma] + more)) && ParsePreds(more).Some?
    ensures ParsePreds(ts) == Some([p] + ParsePreds(more).value)
  {
  }

  lemma ParseGroup(name: string, inner: seq<Token>, rest: seq<Token>)
    ensures var r := ParsePred([Ident(name), Group(inner)] + rest); var args := ParsePreds(inner);
      args.Some? ==>
        && (name == "all" ==> r == Some((All(args.value), rest)))
        && (name == "any" ==> r == Some((Any(args.value), rest)))
        && (name == "not" && |args.value| == 1 ==> r == Some((Not(args.value[0]), rest)))
  {
  }

  /** Every predicate, however it is spelled, is read back as itself. */
  lemma {:induction false} PrintParses(p: Pred, trailing: bool, rest: seq<Token>)
    requires rest == [] || rest[0].Comma?
    ensures ParsePred(Print(p, trailing) + rest) == Some((p, rest))
    decreases p, 1
  {
    match p
    case Const(_) => PrintSimpleParses(p, trailing, rest);
    case Cfg(_) => PrintSimpleParses(p, trailing, rest);
    case All(_) =>
      PrintFromParses(p, 0, trailing);
      ParseGroup("all", PrintFrom(p, 0, trailing), rest);
      hide ParsePred;
    case Any(_) =>
      PrintFromParses(p, 0, trailing);
      ParseGroup("any", PrintFrom(p, 0, trailing), rest);
      hide ParsePred;
    case Not(arg) =>
      var tail := if trailing then [Comma] else [];
      assert [Comma] + [] == [Comma] && [arg] + [] == [arg];
      PrintParses(arg, trailing, tail);
      if trailing {
        ParseNext(Print(arg, trailing) + tail, arg, []);
      } else {
        ParseLast(Print(arg, trailing) + tail, arg);
      }
      ParseGroup("not", Print(arg, trailing) + tail, rest);
      hide ParsePred;
  }

  lemma PrintSimpleParses(p: Pred, trailing: bool, rest: seq<Token>)
    requires (p.Const? || p.Cfg?) && (rest == [] || rest[0].Comma?)
    ensures ParsePred(Print(p, trailing) + rest) == Some((p, rest))
  {
  }

  lemma {:induction false} PrintFromParses(p: Pred, i: nat, trailing: bool)
    requires (p.All? || p.Any?) && i <= |p.args|
    ensures ParsePreds(PrintFrom(p, i, trailing)) == Some(p.args[i..])
    decreases p, 0, |p.args| - i
  {
    assert ParsePreds([]) == Some([]);
    hide ParsePred;
    hide ParsePreds;
    hide Print;
    if i == |p.args| {
      assert p.args[i..] == [];
    } else if i + 1 == |p.args| && !trailing {
      assert p.args[i..] == [p.args[i]];
      PrintParses(p.args[i], trailing, []);
      ParseLast(PrintFrom(p, i, trailing), p.args[i]);
    } else {
      assert p.args[i..] == [p.args[i]] + p.args[i + 1..];
      var more := PrintFrom(p, i + 1, trailing);
      PrintFromParses(p, i + 1, trailing);
      PrintParses(p.args[i], trailing, [Comma] + more);
      ParseNext(PrintFrom(p, i, trailing), p.args[i], more);
    }
  }

  /** What the tool relies on: an item it skips is compiled out of every build without `test`, and a
      predicate that is off in every such build is skipped when no unknown option occurs both ways. */
  lemma SkippedExactlyWhenOff(p: Pred, trailing: bool, comma: bool)
    ensures var ts := Print(p, trailing) + if comma then [Comma] else [];
      && (DisabledWithoutTest(ts) ==> forall on: set<Atom> :: TEST !in on ==> !Holds(p, on))
      && (OnePolarity(p) && (forall on: set<Atom> :: TEST !in on ==> !Holds(p, on)) ==> DisabledWithoutTest(ts))
  {
    var tail: seq<Token> := if comma then [Comma] else [];
    PrintParses(p, trailing, tail);
    ParseTruthIsEval(Print(p, trailing) + tail);
    if Eval(p) == False {
      forall on: set<Atom> | TEST !in on ensures !Holds(p, on) {
        EvalIsSound(p, on);
      }
    }
    if OnePolarity(p) {
      EvalIsExact(p, false);
    }
  }

  /** And on any tokens at all: whatever is skipped reads as a predicate that is off in every build
      without `test`. */
  lemma SkippedTokensAreOff(ts: seq<Token>, on: set<Atom>)
    requires DisabledWithoutTest(ts) && TEST !in on
    ensures ParsePred(ts).Some? && !Holds(ParsePred(ts).value.0, on)
  {
    ParseTruthIsEval(ts);
    EvalIsSound(ParsePred(ts).value.0, on);
  }
}
