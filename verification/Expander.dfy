/** The `${VAR}` and `${VAR:-default}` expander of `src/config.rs`. */
module Expander {
  import opened Common

  type Env = map<string, string>

  datatype ExpandError = Unclosed | EmptyName | Unset(name: string)

  /** The position of the first `}`. */
  function FindClose(s: string): Option<nat> {
    if s == [] then None
    else if s[0] == '}' then Some(0)
    else match FindClose(s[1..])
      case None => None
      case Some(k) => Some(k + 1)
  }

  /** The position of the first `:-`. */
  function FindDefault(s: string): Option<nat> {
    if |s| < 2 then None
    else if s[0] == ':' && s[1] == '-' then Some(0)
    else match FindDefault(s[1..])
      case None => None
      case Some(k) => Some(k + 1)
  }

  lemma {:induction false} FindCloseIs(s: string)
    ensures FindClose(s).Some? <==> '}' in s
    ensures FindClose(s).Some? ==>
              FindClose(s).value < |s| && s[FindClose(s).value] == '}' && '}' !in s[..FindClose(s).value]
  {
    if s != [] && s[0] != '}' {
      FindCloseIs(s[1..]);
      assert s == [s[0]] + s[1..];
      if FindClose(s).Some? {
        var k := FindClose(s).value;
        assert s[..k] == [s[0]] + s[1..][..k - 1];
      }
    }
  }

  predicate DefaultAt(s: string, i: int) {
    0 <= i < |s| - 1 && s[i] == ':' && s[i + 1] == '-'
  }

  lemma {:induction false} FindDefaultIs(s: string)
    ensures FindDefault(s).Some? ==>
              var k := FindDefault(s).value; DefaultAt(s, k) && forall i | 0 <= i < k :: !DefaultAt(s, i)
    ensures FindDefault(s).None? ==> forall i :: !DefaultAt(s, i)
  {
    if |s| >= 2 && !DefaultAt(s, 0) {
      FindDefaultIs(s[1..]);
      assert forall i | i > 0 :: DefaultAt(s, i) <==> DefaultAt(s[1..], i - 1);
    }
  }

  function NameOf(inner: string): string {
    FindDefaultIs(inner);
    if FindDefault(inner).Some? then inner[..FindDefault(inner).value] else inner
  }

  function DefaultOf(inner: string): Option<string> {
    FindDefaultIs(inner);
    if FindDefault(inner).Some? then Some(inner[FindDefault(inner).value + 2..]) else None
  }

  /** A placeholder's text is its name, then, if it has a default, the first `:-` and the default. */
  lemma PlaceholderSplits(inner: string)
    ensures DefaultOf(inner).Some? ==> inner == NameOf(inner) + ":-" + DefaultOf(inner).value
    ensures DefaultOf(inner).None? ==> inner == NameOf(inner)
    ensures forall i | 0 <= i < |NameOf(inner)| :: !DefaultAt(inner, i)
  {
    FindDefaultIs(inner);
    if FindDefault(inner).Some? {
      var k := FindDefault(inner).value;
      assert inner == inner[..k] + ":-" + inner[k + 2..];
    }
  }

  /** The value of a placeholder. */
  function Resolve(inner: string, env: Env): Result<string, ExpandError> {
    var name := NameOf(inner);
    if name == [] then Failure(EmptyName)
    else if name in env then Success(env[name])
    else match DefaultOf(inner)
      case Some(d) => Success(d)
      case None => Failure(Unset(name))
  }

  predicate Opens(s: string) {
    |s| >= 2 && s[0] == '$' && s[1] == '{'
  }

  function Prepend(s: string, r: Result<string, ExpandError>): Result<string, ExpandError> {
    match r
    case Success(t) => Success(s + t)
    case Failure(e) => Failure(e)
  }

  // ---------------------------------------------------------------- the text as a script

  datatype Piece = Text(s: string) | Hole(inner: string)

  /** Pieces in order, and perhaps the text after a last `${` that is never closed. */
  datatype Script = Script(pieces: seq<Piece>, open: Option<string>)

  function PrintPiece(p: Piece): string {
    match p
    case Text(s) => s
    case Hole(inner) => "${" + inner + "}"
  }

  function Print(sc: Script): string
    decreases |sc.pieces|
  {
    if sc.pieces == [] then (if sc.open.Some? then "${" + sc.open.value else "")
    else PrintPiece(sc.pieces[0]) + Print(sc.(pieces := sc.pieces[1..]))
  }

  ghost predicate FreeOfOpen(s: string) {
    forall i | 0 <= i < |s| - 1 :: !(s[i] == '$' && s[i + 1] == '{')
  }

  /** Literals are not empty, contain no `${` and are not adjacent; no hole contains a `}`. */
  ghost predicate Alternates(sc: Script)
    decreases |sc.pieces|
  {
    if sc.pieces == [] then sc.open.Some? ==> '}' !in sc.open.value
    else
      && Alternates(sc.(pieces := sc.pieces[1..]))
      && match sc.pieces[0]
         case Text(s) => s != [] && FreeOfOpen(s) && (|sc.pieces| > 1 ==> sc.pieces[1].Hole?)
         case Hole(inner) => '}' !in inner
  }

  /** The single-pass meaning: each placeholder is replaced once, and substituted text is not looked at again. */
  function Evaluate(sc: Script, env: Env): Result<string, ExpandError>
    decreases |sc.pieces|
  {
    if sc.pieces == [] then (if sc.open.Some? then Failure(Unclosed) else Success(""))
    else
      var rest := Evaluate(sc.(pieces := sc.pieces[1..]), env);
      match sc.pieces[0]
      case Text(s) => Prepend(s, rest)
      case Hole(inner) =>
        match Resolve(inner, env)
        case Failure(e) => Failure(e)
        case Success(v) => Prepend(v, rest)
  }

  function AddChar(c: char, sc: Script): Script {
    if sc.pieces != [] && sc.pieces[0].Text?
    then sc.(pieces := [Text([c] + sc.pieces[0].s)] + sc.pieces[1..])
    else sc.(pieces := [Text([c])] + sc.pieces)
  }

  /** Reads a text as a script. */
  function Read(input: string): Script
    decreases |input|
  {
    FindCloseIs(if Opens(input) then input[2..] else "");
    if input == [] then Script([], None)
    else if Opens(input) then
      match FindClose(input[2..])
      case None => Script([], Some(input[2..]))
      case Some(k) =>
        var rest := Read(input[2..][k + 1..]);
        rest.(pieces := [Hole(input[2..][..k])] + rest.pieces)
    else AddChar(input[0], Read(input[1..]))
  }

  // ---------------------------------------------------------------- the loop

  /** What the loop still has to produce when `input` is left. */
  function Expansion(input: string, env: Env): Result<string, ExpandError>
    decreases |input|
  {
    FindCloseIs(if Opens(input) then input[2..] else "");
    if input == [] then Success("")
    else if Opens(input) then
      match FindClose(input[2..])
      case None => Failure(Unclosed)
      case Some(k) =>
        match Resolve(input[2..][..k], env)
        case Failure(e) => Failure(e)
        case Success(v) => Prepend(v, Expansion(input[2..][k + 1..], env))
    else Prepend([input[0]], Expansion(input[1..], env))
  }

  lemma PrependTwice(a: string, b: string, r: Result<string, ExpandError>)
    ensures Prepend(a, Prepend(b, r)) == Prepend(a + b, r)
  {
    if r.Success? {
      assert a + (b + r.value) == (a + b) + r.value;
    }
  }

  lemma PrependNothing(r: Result<string, ExpandError>)
    ensures Prepend("", r) == r
  {
    if r.Success? {
      assert "" + r.value == r.value;
    }
  }

  /** The inner loop: collects characters up to the next `}`. */
  method ReadInner(input: string, start: nat) returns (inner: string, closed: bool, next: nat)
    requires start <= |input|
    ensures closed <==> FindClose(input[start..]).Some?
    ensures start <= next <= |input|
    ensures closed ==> var k := FindClose(input[start..]).value;
              next == start + k + 1 && inner == input[start..next - 1]
  {
    inner := "";
    closed := false;
    next := start;
    while next < |input|
      invariant start <= next <= |input|
      invariant inner == input[start..next] && '}' !in inner
      invariant !closed
    {
      var c := input[next];
      next := next + 1;
      if c == '}' {
        closed := true;
        CloseAt(input[start..], next - 1 - start);
        return;
      }
      inner := inner + [c];
    }
    assert input[start..] == inner;
    FindCloseIs(input[start..]);
  }

  lemma {:induction false} CloseAt(s: string, k: nat)
    requires k < |s| && s[k] == '}' && '}' !in s[..k]
    ensures FindClose(s) == Some(k)
  {
    if k > 0 {
      assert s[0] in s[..k];
      assert s[1..][..k - 1] == s[..k][1..];
      CloseAt(s[1..], k - 1);
    }
  }

  lemma CharStep(input: string, i: nat, env: Env)
    requires i < |input| && !Opens(input[i..])
    ensures Expansion(input[i..], env) == Prepend([input[i]], Expansion(input[i + 1..], env))
  {
    assert input[i..][1..] == input[i + 1..];
  }

  lemma HoleStep(input: string, i: nat, env: Env)
    requires i <= |input| && Opens(input[i..])
    ensures Expansion(input[i..], env) == AfterOpen(input[i + 2..], env)
  {
    assert input[i..][2..] == input[i + 2..];
  }

  /** The expansion of `${` followed by `after`. */
  function AfterOpen(after: string, env: Env): Result<string, ExpandError> {
    FindCloseIs(after);
    match FindClose(after)
    case None => Failure(Unclosed)
    case Some(k) =>
      match Resolve(after[..k], env)
      case Failure(e) => Failure(e)
      case Success(v) => Prepend(v, Expansion(after[k + 1..], env))
  }

  /** One left-to-right pass with an output buffer, failing at the first bad placeholder. */
  method ExpandEnvVars(input: string, env: Env) returns (r: Result<string, ExpandError>)
    ensures r == Expansion(input, env)
  {
    var output := "";
    var i := 0;
    ghost var all := Expansion(input, env);
    assert input[0..] == input;
    PrependNothing(all);
    while i < |input|
      invariant 0 <= i <= |input|
      invariant all == Prepend(output, Expansion(input[i..], env))
      decreases |input| - i
    {
      if input[i] == '$' && i + 1 < |input| && input[i + 1] == '{' {
        HoleStep(input, i, env);
        var inner, closed, next := ReadInner(input, i + 2);
        if !closed {
          return Failure(Unclosed);
        }
        ghost var after := input[i + 2..];
        assert inner == after[..FindClose(after).value] && input[next..] == after[FindClose(after).value + 1..];
        var value := Resolve(inner, env);
        if value.Failure? {
          return Failure(value.error);
        }
        PrependTwice(output, value.value, Expansion(input[next..], env));
        output := output + value.value;
        i := next;
      } else {
        CharStep(input, i, env);
        PrependTwice(output, [input[i]], Expansion(input[i + 1..], env));
        output := output + [input[i]];
        i := i + 1;
      }
    }
    assert input[i..] == "" && output + "" == output;
    r := Success(output);
  }

  // ---------------------------------------------------------------- the loop evaluates the script

  lemma EvaluateAddChar(c: char, sc: Script, env: Env)
    ensures Evaluate(AddChar(c, sc), env) == Prepend([c], Evaluate(sc, env))
  {
    var sc' := AddChar(c, sc);
    if sc.pieces != [] && sc.pieces[0].Text? {
      assert sc'.pieces[1..] == sc.pieces[1..];
      PrependTwice([c], sc.pieces[0].s, Evaluate(sc.(pieces := sc.pieces[1..]), env));
    } else {
      assert sc'.pieces[1..] == sc.pieces;
    }
  }

  /** For every input the pass computes the single-pass meaning of the text. */
  lemma {:induction false} ExpansionEvaluates(input: string, env: Env)
    ensures Expansion(input, env) == Evaluate(Read(input), env)
    decreases |input|
  {
    if input == [] {
    } else if Opens(input) {
      FindCloseIs(input[2..]);
      if FindClose(input[2..]).Some? {
        var k := FindClose(input[2..]).value;
        var rest := input[2..][k + 1..];
        ExpansionEvaluates(rest, env);
        var sc := Read(input);
        assert sc.pieces[1..] == Read(rest).pieces;
        assert sc.(pieces := sc.pieces[1..]) == Read(rest);
      }
    } else {
      ExpansionEvaluates(input[1..], env);
      EvaluateAddChar(input[0], Read(input[1..]), env);
    }
  }

  // ---------------------------------------------------------------- texts and scripts correspond

  lemma PrintAddChar(c: char, sc: Script)
    ensures Print(AddChar(c, sc)) == [c] + Print(sc)
  {
    var sc' := AddChar(c, sc);
    if sc.pieces != [] && sc.pieces[0].Text? {
      assert sc'.pieces[1..] == sc.pieces[1..];
    } else {
      assert sc'.pieces[1..] == sc.pieces;
    }
  }

  lemma AlternatesAddChar(c: char, sc: Script)
    requires Alternates(sc) && !Opens([c] + Print(sc))
    ensures Alternates(AddChar(c, sc))
  {
    var sc' := AddChar(c, sc);
    if sc.pieces != [] && sc.pieces[0].Text? {
      var s := sc.pieces[0].s;
      assert sc'.pieces[1..] == sc.pieces[1..];
      assert ([c] + Print(sc))[1] == s[0];
      var t := [c] + s;
      forall i | 0 <= i < |t| - 1
        ensures !(t[i] == '$' && t[i + 1] == '{')
      {
        if i > 0 {
          assert t[i] == s[i - 1] && t[i + 1] == s[i];
        }
      }
    } else {
      assert sc'.pieces[1..] == sc.pieces;
    }
  }

  lemma PrintHole(inner: string, sc: Script)
    ensures Print(sc.(pieces := [Hole(inner)] + sc.pieces)) == "${" + inner + "}" + Print(sc)
    ensures '}' !in inner && Alternates(sc) ==> Alternates(sc.(pieces := [Hole(inner)] + sc.pieces))
  {
    assert ([Hole(inner)] + sc.pieces)[1..] == sc.pieces;
  }

  /** Every text is the printed form of an alternating script. */
  lemma {:induction false} ReadPrints(input: string)
    ensures Print(Read(input)) == input && Alternates(Read(input))
    decreases |input|
  {
    if input == [] {
    } else if Opens(input) {
      ReadPrintsHole(input[2..]);
      assert input == "${" + input[2..];
    } else {
      ReadPrints(input[1..]);
      PrintAddChar(input[0], Read(input[1..]));
      assert input == [input[0]] + input[1..];
      AlternatesAddChar(input[0], Read(input[1..]));
    }
  }

  lemma {:induction false} ReadPrintsHole(after: string)
    ensures Print(Read("${" + after)) == "${" + after && Alternates(Read("${" + after))
    decreases |after| + 1
  {
    var input := "${" + after;
    assert Opens(input) && input[2..] == after;
    FindCloseIs(after);
    match FindClose(after) {
      case None =>
        assert Read(input) == Script([], Some(after));
      case Some(k) =>
        var inner, rest := after[..k], after[k + 1..];
        ReadPrints(rest);
        assert Read(input) == Read(rest).(pieces := [Hole(inner)] + Read(rest).pieces);
        PrintHole(inner, Read(rest));
        JoinHole(after, k);
    }
  }

  lemma JoinHole(after: string, k: nat)
    requires k < |after| && after[k] == '}'
    ensures "${" + after[..k] + "}" + after[k + 1..] == "${" + after
  {
    assert after == after[..k] + "}" + after[k + 1..];
  }

  lemma {:induction false} ReadText(s: string, rest: string)
    requires s != [] && FreeOfOpen(s) && (rest == "" || Opens(rest))
    requires Read(rest).pieces == [] || Read(rest).pieces[0].Hole?
    ensures Read(s + rest) == Read(rest).(pieces := [Text(s)] + Read(rest).pieces)
    decreases |s|
  {
    var input := s + rest;
    assert input[1..] == s[1..] + rest;
    if |s| == 1 {
      assert s[1..] + rest == rest;
      assert !Opens(input);
      assert s == [s[0]];
    } else {
      assert !Opens(input);
      assert FreeOfOpen(s[1..]) by {
        forall i | 0 <= i < |s[1..]| - 1
          ensures !(s[1..][i] == '$' && s[1..][i + 1] == '{')
        {
          assert s[1..][i] == s[i + 1] && s[1..][i + 1] == s[i + 2];
        }
      }
      ReadText(s[1..], rest);
      assert [s[0]] + s[1..] == s;
      var sc := Read(s[1..] + rest);
      assert sc.pieces[1..] == Read(rest).pieces;
    }
  }

  lemma ReadHole(inner: string, rest: string)
    requires '}' !in inner
    ensures Read("${" + inner + "}" + rest) == Read(rest).(pieces := [Hole(inner)] + Read(rest).pieces)
  {
    var input := "${" + inner + "}" + rest;
    var after := inner + "}" + rest;
    assert input[2..] == after;
    assert after[..|inner|] == inner;
    CloseAt(after, |inner|);
    assert after[|inner| + 1..] == rest;
  }

  lemma ReadBackOpen(tail: string)
    requires '}' !in tail
    ensures Read("${" + tail) == Script([], Some(tail))
  {
    var input := "${" + tail;
    assert input[2..] == tail;
    FindCloseIs(tail);
  }

  /** Printing an alternating script and reading it back gives the script: the two forms correspond one to one. */
  lemma {:induction false} ReadBack(sc: Script)
    requires Alternates(sc)
    ensures Read(Print(sc)) == sc
    decreases |sc.pieces|
  {
    if sc.pieces == [] {
      if sc.open.Some? {
        ReadBackOpen(sc.open.value);
      }
    } else {
      var rest := sc.(pieces := sc.pieces[1..]);
      ReadBack(rest);
      assert sc.pieces == [sc.pieces[0]] + rest.pieces;
      match sc.pieces[0] {
        case Text(s) =>
          PrintStartsWithHole(rest);
          ReadText(s, Print(rest));
        case Hole(inner) =>
          ReadHole(inner, Print(rest));
      }
    }
  }

  lemma PrintStartsWithHole(sc: Script)
    requires sc.pieces == [] || sc.pieces[0].Hole?
    ensures Print(sc) == "" || Opens(Print(sc))
  {
  }

  /** On the printed form of any alternation of literals and placeholders, the pass returns its evaluation. */
  lemma ExpandsAlternation(sc: Script, env: Env)
    requires Alternates(sc)
    ensures Expansion(Print(sc), env) == Evaluate(sc, env)
  {
    ExpansionEvaluates(Print(sc), env);
    ReadBack(sc);
  }

  // ---------------------------------------------------------------- exactly when it fails

  predicate BadHole(p: Piece, env: Env) {
    p.Hole? && (NameOf(p.inner) == [] || (NameOf(p.inner) !in env && DefaultOf(p.inner).None?))
  }

  lemma {:induction false} EvaluateFailsExactly(sc: Script, env: Env)
    ensures Evaluate(sc, env).Failure? <==> sc.open.Some? || exists i :: 0 <= i < |sc.pieces| && BadHole(sc.pieces[i], env)
    decreases |sc.pieces|
  {
    if sc.pieces != [] {
      var rest := sc.(pieces := sc.pieces[1..]);
      EvaluateFailsExactly(rest, env);
      assert forall i | 0 <= i < |rest.pieces| :: rest.pieces[i] == sc.pieces[i + 1];
      if i :| 0 <= i < |sc.pieces| && BadHole(sc.pieces[i], env) {
        assert i > 0 ==> BadHole(rest.pieces[i - 1], env);
      }
      if i :| 0 <= i < |rest.pieces| && BadHole(rest.pieces[i], env) {
        assert BadHole(sc.pieces[i + 1], env);
      }
    }
  }

  /** Expansion fails exactly if a placeholder is unclosed, has an empty name, or is unset without a default. */
  lemma ExpandFailsExactly(input: string, env: Env)
    ensures Expansion(input, env).Failure? <==>
              Read(input).open.Some? || exists i :: 0 <= i < |Read(input).pieces| && BadHole(Read(input).pieces[i], env)
  {
    ExpansionEvaluates(input, env);
    EvaluateFailsExactly(Read(input), env);
  }

  // ---------------------------------------------------------------- what it gives otherwise

  /** A placeholder stands for the variable's value, and for its default only if the variable is not set. */
  function ValueOf(p: Piece, env: Env): string {
    match p
    case Text(s) => s
    case Hole(inner) => if NameOf(inner) in env then env[NameOf(inner)] else DefaultOf(inner).GetOr("")
  }

  function ValuesOf(pieces: seq<Piece>, env: Env): string {
    if pieces == [] then "" else ValueOf(pieces[0], env) + ValuesOf(pieces[1..], env)
  }

  /** The complaint about the first bad placeholder, or about a last one that is not closed. */
  function Complaint(pieces: seq<Piece>, env: Env): ExpandError {
    if pieces == [] then Unclosed
    else if BadHole(pieces[0], env) then (if NameOf(pieces[0].inner) == [] then EmptyName else Unset(NameOf(pieces[0].inner)))
    else Complaint(pieces[1..], env)
  }

  lemma {:induction false} EvaluateIsExactly(sc: Script, env: Env)
    ensures Evaluate(sc, env) ==
              if Evaluate(sc, env).Failure? then Failure(Complaint(sc.pieces, env)) else Success(ValuesOf(sc.pieces, env))
    decreases |sc.pieces|
  {
    if sc.pieces != [] {
      EvaluateIsExactly(sc.(pieces := sc.pieces[1..]), env);
    }
  }

  /**
   A successful expansion is the literals and the placeholders' values in order: the variable's
   value where it is set, else the default.  A failed one names the first placeholder at fault.
   */
  lemma ExpandGivesExactly(input: string, env: Env)
    ensures Expansion(input, env) ==
              if Read(input).open.Some? || exists i :: 0 <= i < |Read(input).pieces| && BadHole(Read(input).pieces[i], env)
              then Failure(Complaint(Read(input).pieces, env))
              else Success(ValuesOf(Read(input).pieces, env))
  {
    ExpandFailsExactly(input, env);
    ExpansionEvaluates(input, env);
    EvaluateIsExactly(Read(input), env);
  }
}
