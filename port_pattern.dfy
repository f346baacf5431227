/**
 * The port-name pattern matcher of the element factory.
 *
 * A component declares the names of its ports as patterns: a literal name,
 * the wildcard `*`, or a name holding a placeholder `%d` or `%(var)d` that
 * stands for a decimal index. The matcher walks the pattern and the offered
 * name as two C strings with one cursor each; a placeholder eats the longest
 * run of digits at the name's cursor, without backtracking.
 */
module PortPattern {
  import opened Wrappers

  // ---------------------------------------------------------------------
  // The C-string view of a std::string

  predicate NulFree(s: string)
  {
    forall k :: 0 <= k < |s| ==> s[k] != '\0'
  }

  /** What a walk over `c_str()` sees: the characters before the first NUL. */
  function CString(s: string): (r: string)
    ensures NulFree(r) && r <= s
    ensures |r| < |s| ==> s[|r|] == '\0'
    ensures NulFree(s) ==> r == s
  {
    if s == [] || s[0] == '\0' then [] else [s[0]] + CString(s[1..])
  }

  /** `isdigit` in the C locale. */
  predicate IsDigit(c: char)
  {
    '0' <= c <= '9'
  }

  predicate AllDigits(s: string)
  {
    forall k :: 0 <= k < |s| ==> IsDigit(s[k])
  }

  // ---------------------------------------------------------------------
  // The reference definition

  /** Length of the longest run of decimal digits at the start of `s`. */
  function DigitRun(s: string): (n: nat)
    ensures n <= |s|
    ensures AllDigits(s[..n])
    ensures n < |s| ==> !IsDigit(s[n])
  {
    if s != [] && IsDigit(s[0]) then 1 + DigitRun(s[1..]) else 0
  }

  /** Offset of the first `)` in `s`, or `|s|` when there is none. */
  function CloseParen(s: string): (n: nat)
    ensures n <= |s|
    ensures forall k :: 0 <= k < n ==> s[k] != ')'
    ensures n < |s| ==> s[n] == ')'
  {
    if s == [] || s[0] == ')' then 0 else 1 + CloseParen(s[1..])
  }

  /** `p` starts with `%d` or `%(`, the two openings the matcher treats as a placeholder. */
  predicate OpensPlaceholder(p: string)
  {
    |p| >= 2 && p[0] == '%' && (p[1] == '(' || p[1] == 'd')
  }

  /**
   * Length of the placeholder at the start of `p`; None when a `%(` is not
   * closed by `)d` (the matcher's "malformed string" failure).
   */
  function PlaceholderLength(p: string): (r: Option<nat>)
    requires OpensPlaceholder(p)
    ensures r.Some? ==> 2 <= r.value <= |p| && p[r.value - 1] == 'd'
    ensures r.Some? && p[1] == '(' ==> p[r.value - 2] == ')' && r.value == CloseParen(p) + 2
    ensures r.None? <==> p[1] == '(' && (CloseParen(p) + 1 >= |p| || p[CloseParen(p) + 1] != 'd')
  {
    if p[1] == 'd' then Some(2)
    else
      var c := CloseParen(p);
      if c + 1 < |p| && p[c + 1] == 'd' then Some(c + 2) else None
  }

  /**
   * The outcome of matching pattern `p` against offered name `o`, both taken
   * from the cursors' current positions at the top of one round of the
   * matcher's loop. `first` holds for the round the do-while enters without
   * testing its guard; every later round is entered only while neither
   * string is exhausted.
   */
  function MatchFrom(p: string, o: string, first: bool): bool
    decreases |p|
  {
    if p == [] then o == []
    else if !first && o == [] then false
    else if OpensPlaceholder(p) then
      match PlaceholderLength(p)
      case None => false
      case Some(n) =>
        var rest, o' := p[n..], o[DigitRun(o)..];
        if rest == [] then o' == []
        else o' != [] && o'[0] == rest[0] && MatchFrom(rest[1..], o'[1..], false)
    else o != [] && o[0] == p[0] && MatchFrom(p[1..], o[1..], false)
  }

  /** Port pattern `p` accepts port name `o`: the wildcard, or a match from the start. */
  predicate Matches(p: string, o: string)
  {
    p == "*" || MatchFrom(p, o, true)
  }

  // ---------------------------------------------------------------------
  // The matcher

  /**
   * Reading and advancing a `const char *` cursor, modelled by the suffix of
   * the string that starts at the cursor. Where the matcher steps past the
   * terminator, the model's cursor stays on it and reads '\0' again.
   */
  function Head(s: string): char
  {
    if s == [] then '\0' else s[0]
  }

  function Tail(s: string): string
  {
    if s == [] then [] else s[1..]
  }

  /**
   * The pattern cursor `x` stands on a `%d` or `%(`: move it past the
   * placeholder, or report that a `%(` is not closed by `)d`.
   */
  method EatPlaceholder(x: string) returns (ok: bool, rest: string)
    requires NulFree(x) && OpensPlaceholder(x)
    ensures ok <==> PlaceholderLength(x).Some?
    ensures ok ==> rest == x[PlaceholderLength(x).value..]
  {
    rest := Tail(x);
    if Head(rest) == '(' {
      while Head(rest) != '\0' && Head(rest) != ')'
        invariant 1 <= |x| - |rest| && rest == x[|x| - |rest|..]
        invariant |x| - |rest| + CloseParen(rest) == CloseParen(x)
        decreases |rest|
      {
        rest := Tail(rest);
      }
      assert rest == x[CloseParen(x)..];
      rest := Tail(rest);
    }
    if Head(rest) != 'd' {
      return false, rest;
    }
    rest := Tail(rest);
    ok := true;
  }

  /** Move the name cursor `y` past the run of digits it stands on. */
  method EatDigits(y: string) returns (rest: string)
    requires NulFree(y)
    ensures rest == y[DigitRun(y)..]
  {
    rest := y;
    while Head(rest) != '\0' && IsDigit(Head(rest))
      invariant rest == y[|y| - |rest|..]
      invariant DigitRun(y) == |y| - |rest| + DigitRun(rest)
      decreases |rest|
    {
      rest := Tail(rest);
    }
  }

  /** `checkPort`: the declared pattern `def` accepts the offered port name. */
  method CheckPort(def: string, offered: string) returns (r: bool)
    ensures r == Matches(CString(def), CString(offered))
    ensures def == "*" ==> r
  {
    var x, y := CString(def), CString(offered);
    // the name `*` matches everything
    if Head(x) == '*' && Head(Tail(x)) == '\0' {
      return true;
    }
    ghost var verdict := MatchFrom(x, y, true);
    assert Matches(x, y) == verdict;
    var first := true;
    while first || (Head(x) != '\0' && Head(y) != '\0')
      invariant NulFree(x) && NulFree(y)
      invariant MatchFrom(x, y, first) == verdict
      decreases |x|
    {
      if Head(x) == '%' && (Head(Tail(x)) == '(' || Head(Tail(x)) == 'd') {
        // a %d or %(var)d to eat, then the digits of the name
        var ok;
        ok, x := EatPlaceholder(x);
        if !ok {
          return false;
        }
        y := EatDigits(y);
      }
      if Head(x) != Head(y) {
        return false;
      }
      if Head(x) == '\0' {
        return true;
      }
      x, y, first := Tail(x), Tail(y), false;
    }
    return Head(x) == Head(y);
  }

  // ---------------------------------------------------------------------
  // What the matcher accepts

  /** No `%d` or `%(` anywhere in `s`: every character of the pattern is literal. */
  predicate NoPlaceholder(s: string)
  {
    forall k :: 0 <= k < |s| - 1 ==> !(s[k] == '%' && (s[k + 1] == '(' || s[k + 1] == 'd'))
  }

  /** `h` is one well-formed placeholder: `%d`, or `%(name)d` with no `)` in the name. */
  predicate IsPlaceholder(h: string)
  {
    h == "%d" || (|h| >= 4 && h[..2] == "%(" && h[|h| - 2..] == ")d" && ')' !in h[2..|h| - 2])
  }

  /** A well-formed placeholder is recognised as a whole, whatever follows it. */
  lemma PlaceholderAtStart(h: string, t: string)
    requires IsPlaceholder(h)
    ensures OpensPlaceholder(h + t) && PlaceholderLength(h + t) == Some(|h|)
  {
    var p := h + t;
    if h != "%d" {
      assert p[0] == '%' && p[1] == '(';
      var c := CloseParen(p);
      assert p[|h| - 2] == ')';
      forall k | 0 <= k < |h| - 2
        ensures p[k] != ')'
      {
        if k >= 2 {
          assert p[k] == h[2..|h| - 2][k - 2];
        }
      }
      assert c == |h| - 2;
      assert p[c + 1] == 'd';
    }
  }

  /**
   * A pattern that starts with literal characters: the name must start with
   * the same characters, and the rest of the pattern is matched against the
   * rest of the name in a round the loop guard admits.
   */
  lemma {:induction false} LiteralPrefix(lit: string, q: string, o: string, first: bool)
    requires lit != [] && NoPlaceholder(lit) && (q == [] || q[0] == '%')
    ensures MatchFrom(lit + q, o, first) <==>
      |o| >= |lit| && o[..|lit|] == lit && MatchFrom(q, o[|lit|..], false)
  {
    var p := lit + q;
    assert p[0] == lit[0];
    assert |p| >= 2 ==> p[1] == if |lit| >= 2 then lit[1] else q[0];
    assert !OpensPlaceholder(p);
    assert p[1..] == lit[1..] + q;
    if o != [] {
      if |lit| == 1 {
        assert o[..1] == lit <==> o[0] == lit[0];
        assert o[1..] == o[|lit|..];
      } else {
        LiteralPrefix(lit[1..], q, o[1..], false);
        if |o| >= |lit| {
          assert o[1..][|lit| - 1..] == o[|lit|..];
          assert o[..|lit|] == lit <==> o[0] == lit[0] && o[1..][..|lit| - 1] == lit[1..];
        }
      }
    }
  }

  /** A pattern with no placeholder, other than `*`, accepts exactly itself. */
  lemma LiteralPattern(p: string, o: string)
    requires NoPlaceholder(p) && p != "*"
    ensures Matches(p, o) <==> o == p
  {
    if p != [] {
      assert p + [] == p;
      LiteralPrefix(p, [], o, true);
      assert |o| >= |p| && o[..|p|] == p && o[|p|..] == [] <==> o == p;
    }
  }

  /** A lone placeholder, reached after the first round, accepts a non-empty run of digits. */
  lemma PlaceholderAlone(h: string, o: string)
    requires IsPlaceholder(h)
    ensures MatchFrom(h, o, false) <==> o != [] && AllDigits(o)
  {
    PlaceholderAtStart(h, []);
    assert h + [] == h;
  }

  /**
   * An indexed port pattern `prefix%d` or `prefix%(name)d` accepts exactly the
   * names made of the prefix and one or more digits.
   */
  lemma IndexedPattern(lit: string, h: string, o: string)
    requires lit != [] && NoPlaceholder(lit) && IsPlaceholder(h)
    ensures Matches(lit + h, o) <==> |o| > |lit| && o[..|lit|] == lit && AllDigits(o[|lit|..])
  {
    assert |lit + h| > 1;
    LiteralPrefix(lit, h, o, true);
    if |o| >= |lit| {
      PlaceholderAlone(h, o[|lit|..]);
    }
  }

  /**
   * The digits a placeholder eats are never given back: a placeholder followed
   * by a literal digit cannot match.
   */
  lemma DigitAfterPlaceholder(lit: string, h: string, c: char, rest: string, o: string)
    requires NoPlaceholder(lit) && IsPlaceholder(h) && IsDigit(c)
    ensures !Matches(lit + h + [c] + rest, o)
  {
    var q := h + ([c] + rest);
    assert lit + h + [c] + rest == lit + q;
    assert |lit + q| > 1;
    PlaceholderAtStart(h, [c] + rest);
    assert q[|h|..] == [c] + rest;
    if lit == [] {
      assert lit + q == q;
      assert !MatchFrom(q, o, true);
    } else {
      LiteralPrefix(lit, q, o, true);
      if |o| >= |lit| {
        assert !MatchFrom(q, o[|lit|..], false);
      }
    }
  }

  /** A `%(` whose first `)` is not followed by `d` makes the pattern match nothing. */
  lemma UnclosedPlaceholder(lit: string, s: string, o: string)
    requires NoPlaceholder(lit)
    requires ')' !in s ||
      exists name, t :: s == name + ")" + t && ')' !in name && (t == [] || t[0] != 'd')
    ensures !Matches(lit + "%(" + s, o)
  {
    var q := "%(" + s;
    assert lit + "%(" + s == lit + q;
    assert |lit + q| > 1;
    assert OpensPlaceholder(q);
    var c := CloseParen(q);
    if ')' !in s {
      assert forall k :: 2 <= k < |q| ==> q[k] == s[k - 2];
      assert c == |q|;
    } else {
      var name, t :| s == name + ")" + t && ')' !in name && (t == [] || t[0] != 'd');
      assert q[2 + |name|] == ')';
      assert forall k :: 2 <= k < 2 + |name| ==> q[k] == name[k - 2];
      assert c == 2 + |name|;
      assert c + 1 < |q| ==> q[c + 1] == t[0];
    }
    assert PlaceholderLength(q).None?;
    if lit == [] {
      assert lit + q == q;
    } else {
      LiteralPrefix(lit, q, o, true);
    }
  }

  /** An indexed port name: `port%(n)d` accepts `port3`. */
  lemma IndexedAcceptsOneDigit()
    ensures Matches("port%(n)d", "port3")
  {
    assert "port%(n)d" == "port" + "%(n)d";
    IndexedPattern("port", "%(n)d", "port3");
    assert "port3"[4..] == "3";
  }

  /** An indexed port name: `port%(n)d` accepts `port12`. */
  lemma IndexedAcceptsTwoDigits()
    ensures Matches("port%(n)d", "port12")
  {
    assert "port%(n)d" == "port" + "%(n)d";
    IndexedPattern("port", "%(n)d", "port12");
    assert "port12"[4..] == "12";
  }

  /** Indexed port names need digits: `port%(n)d` rejects `portA` and `port%d` rejects `port`. */
  lemma IndexedRejects()
    ensures !Matches("port%(n)d", "portA") && !Matches("port%d", "port")
  {
    assert "port%(n)d" == "port" + "%(n)d";
    IndexedPattern("port", "%(n)d", "portA");
    assert "portA"[4..] == "A";
    assert "port%d" == "port" + "%d";
    IndexedPattern("port", "%d", "port");
  }

  /** No backtracking: `port%d0` rejects `port10`, whose digits the placeholder eats whole. */
  lemma GreedyExample()
    ensures !Matches("port%d0", "port10")
  {
    assert "port%d0" == "port" + "%d" + ['0'] + "";
    DigitAfterPlaceholder("port", "%d", '0', "", "port10");
  }

  /**
   * After a placeholder the next pattern character is compared literally, even
   * when it opens another placeholder: `%d%d` accepts `5%d`.
   */
  lemma PlaceholderAfterPlaceholder()
    ensures Matches("%d%d", "5%d")
  {
    PlaceholderAtStart("%d", "%d");
    assert "%d%d"[2..] == "%d";
    assert DigitRun("5%d") == 1;
    assert "5%d"[1..] == "%d";
    assert MatchFrom("d", "d", false);
  }

  /** A literal pattern accepts itself and nothing longer. */
  lemma LiteralExamples()
    ensures Matches("exact", "exact") && !Matches("exact", "exactly")
  {
    LiteralPattern("exact", "exact");
    LiteralPattern("exact", "exactly");
  }

  /**
   * Where the matcher is more lenient than the port grammar: `*` accepts the
   * empty name, a lone placeholder accepts it too (the first round runs without
   * the loop guard), and a placeholder with more pattern after it accepts an
   * empty run of digits.
   */
  lemma LenientExamples()
    ensures Matches("*", "") && Matches("%d", "") && Matches("a%db", "ab")
  {
    PlaceholderAtStart("%d", []);
    assert "%d" + [] == "%d";
    PlaceholderAtStart("%d", "b");
    assert "a%db" == "a" + ("%d" + "b");
    LiteralPrefix("a", "%d" + "b", "ab", true);
  }
}
