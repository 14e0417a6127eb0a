/** Composite formatting as the generator uses it through string.Format and
    FormatExpression: `{n}` (one decimal digit) is replaced by the n-th
    argument, `{{` and `}}` stand for one brace, and any other brace makes the
    template malformed. Arguments are inserted verbatim and never rescanned. */
module Formatting {
  import opened Model

  predicate NoBraces(s: string)
  {
    '{' !in s && '}' !in s
  }

  predicate IsDigit(c: char)
  {
    '0' <= c <= '9'
  }

  function DigitValue(c: char): nat
    requires IsDigit(c)
  {
    c as int - '0' as int
  }

  /** The placeholder `{i}` for a one-digit index. */
  function Placeholder(i: nat): string
    requires i < 10
  {
    "{" + [('0' as int + i) as char] + "}"
  }

  function Format(t: string, args: seq<string>): (r: Result<string>)
    ensures NoBraces(t) ==> r == Ok(t)
    ensures r.Err? ==> r.failure == FormatError
    decreases |t|
  {
    if |t| == 0 then Ok("")
    else if t[0] == '{' then
      if |t| >= 2 && t[1] == '{' then Prepend("{", Format(t[2..], args))
      else if |t| >= 3 && IsDigit(t[1]) && t[2] == '}' && DigitValue(t[1]) < |args| then
        Prepend(args[DigitValue(t[1])], Format(t[3..], args))
      else Err(FormatError)
    else if t[0] == '}' then
      if |t| >= 2 && t[1] == '}' then Prepend("}", Format(t[2..], args))
      else Err(FormatError)
    else
      assert NoBraces(t) ==> NoBraces(t[1..]) by {
        assert forall c :: c in t[1..] ==> c in t;
      }
      assert t[..1] + t[1..] == t;
      Prepend(t[..1], Format(t[1..], args))
  }

  lemma PrependPrepend(p: string, q: string, r: Result<string>)
    ensures Prepend(p, Prepend(q, r)) == Prepend(p + q, r)
  {
    if r.Ok? {
      assert p + (q + r.value) == (p + q) + r.value;
    }
  }

  /** Formatting distributes over concatenation once the first part is a
      well-formed template on its own. */
  lemma {:induction false} FormatConcat(a: string, b: string, args: seq<string>)
    requires Format(a, args).Ok?
    ensures Format(a + b, args) == Prepend(Format(a, args).value, Format(b, args))
    decreases |a|
  {
    var s := a + b;
    if |a| == 0 {
      assert s == b;
      assert Format(a, args).value == "";
      assert Prepend("", Format(b, args)) == Format(b, args) by {
        if Format(b, args).Ok? { assert "" + Format(b, args).value == Format(b, args).value; }
      }
    } else if a[0] == '{' {
      if |a| >= 2 && a[1] == '{' {
        assert s[2..] == a[2..] + b;
        FormatConcat(a[2..], b, args);
        PrependPrepend("{", Format(a[2..], args).value, Format(b, args));
      } else {
        var i := DigitValue(a[1]);
        assert s[3..] == a[3..] + b;
        FormatConcat(a[3..], b, args);
        PrependPrepend(args[i], Format(a[3..], args).value, Format(b, args));
      }
    } else if a[0] == '}' {
      assert s[2..] == a[2..] + b;
      FormatConcat(a[2..], b, args);
      PrependPrepend("}", Format(a[2..], args).value, Format(b, args));
    } else {
      assert s[1..] == a[1..] + b;
      assert s[..1] == a[..1];
      FormatConcat(a[1..], b, args);
      PrependPrepend(a[..1], Format(a[1..], args).value, Format(b, args));
    }
  }

  lemma FormatPlaceholder(i: nat, args: seq<string>)
    requires i < 10 && i < |args|
    ensures Format(Placeholder(i), args) == Ok(args[i])
  {
    var t := Placeholder(i);
    assert t[0] == '{' && t[2] == '}' && DigitValue(t[1]) == i;
    assert |t[3..]| == 0;
    assert args[i] + "" == args[i];
  }

  /** One more placeholder and literal piece after a well-formed template. */
  lemma FormatStep(t: string, i: nat, p: string, args: seq<string>)
    requires Format(t, args).Ok? && i < 10 && i < |args| && NoBraces(p)
    ensures Format(t + Placeholder(i) + p, args) == Ok(Format(t, args).value + args[i] + p)
  {
    FormatConcat(t, Placeholder(i) + p, args);
    FormatConcat(Placeholder(i), p, args);
    FormatPlaceholder(i, args);
    assert t + Placeholder(i) + p == t + (Placeholder(i) + p);
    assert Format(t, args).value + (args[i] + p) == Format(t, args).value + args[i] + p;
  }

  /** A brace-free template that ends with its one placeholder. */
  lemma FormatOneAtEnd(p0: string, a: string)
    requires NoBraces(p0)
    ensures Format(p0 + "{0}", [a]) == Ok(p0 + a)
  {
    assert Placeholder(0) == "{0}";
    FormatConcat(p0, "{0}", [a]);
    FormatPlaceholder(0, [a]);
  }

  /** A brace-free template that ends with the second of its two placeholders. */
  lemma FormatTwoAtEnd(p0: string, p1: string, a: string, b: string)
    requires NoBraces(p0) && NoBraces(p1)
    ensures Format(p0 + "{0}" + p1 + "{1}", [a, b]) == Ok(p0 + a + p1 + b)
  {
    assert Placeholder(0) == "{0}" && Placeholder(1) == "{1}";
    FormatStep(p0, 0, p1, [a, b]);
    FormatConcat(p0 + "{0}" + p1, "{1}", [a, b]);
    FormatPlaceholder(1, [a, b]);
  }

  /** A brace-free template with two placeholders, in order. */
  lemma FormatTwo(p0: string, p1: string, p2: string, a: string, b: string)
    requires NoBraces(p0) && NoBraces(p1) && NoBraces(p2)
    ensures Format(p0 + "{0}" + p1 + "{1}" + p2, [a, b]) == Ok(p0 + a + p1 + b + p2)
  {
    assert Placeholder(0) == "{0}" && Placeholder(1) == "{1}";
    FormatStep(p0, 0, p1, [a, b]);
    FormatStep(p0 + "{0}" + p1, 1, p2, [a, b]);
  }

  /** A brace-free template with three placeholders, in order. */
  lemma FormatThree(p0: string, p1: string, p2: string, p3: string, a: string, b: string, c: string)
    requires NoBraces(p0) && NoBraces(p1) && NoBraces(p2) && NoBraces(p3)
    ensures Format(p0 + "{0}" + p1 + "{1}" + p2 + "{2}" + p3, [a, b, c])
            == Ok(p0 + a + p1 + b + p2 + c + p3)
  {
    assert Placeholder(0) == "{0}" && Placeholder(1) == "{1}" && Placeholder(2) == "{2}";
    FormatStep(p0, 0, p1, [a, b, c]);
    FormatStep(p0 + "{0}" + p1, 1, p2, [a, b, c]);
    FormatStep(p0 + "{0}" + p1 + "{1}" + p2, 2, p3, [a, b, c]);
  }
}
