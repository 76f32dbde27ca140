/**
 * Text helpers the command encoder relies on: the semicolon field
 * separator of the external-command format, PHP's decimal rendering of
 * integers in string interpolation, and the in-order `%s` substitution
 * that `sprintf` performs on a format provider's template.
 */
module Strings {

  /** The field separator of an external-command line. */
  const Sep: char := ';'

  /** True when `s` can be used as one field without splitting into two. */
  predicate NoSep(s: string) {
    Sep !in s
  }

  // ---------------------------------------------------------------------
  // Fields of a command line
  // ---------------------------------------------------------------------

  /** The line whose fields are `fs`, separated by `;`. */
  function Join(fs: seq<string>): (r: string)
    decreases |fs|
  {
    if |fs| == 0 then ""
    else if |fs| == 1 then fs[0]
    else fs[0] + [Sep] + Join(fs[1..])
  }

  /** Adding a field at the end adds a separator and that field. */
  lemma {:induction false} JoinSnoc(fs: seq<string>, x: string)
    requires |fs| >= 1
    ensures Join(fs + [x]) == Join(fs) + [Sep] + x
    decreases |fs|
  {
    if |fs| == 1 {
      assert fs + [x] == [fs[0], x];
      assert [fs[0], x][1..] == [x];
    } else {
      assert (fs + [x])[1..] == fs[1..] + [x];
      JoinSnoc(fs[1..], x);
    }
  }

  /** The fields of `line`: the maximal runs of characters between separators. */
  function Split(line: string): (fs: seq<string>)
    ensures |fs| >= 1
    decreases |line|
  {
    if |line| == 0 then [""]
    else if line[0] == Sep then [""] + Split(line[1..])
    else var rest := Split(line[1..]); [[line[0]] + rest[0]] + rest[1..]
  }

  /** Splitting a separator-free text yields that text as the single field. */
  lemma {:induction false} SplitNoSep(s: string)
    requires NoSep(s)
    ensures Split(s) == [s]
  {
    if |s| > 0 {
      assert NoSep(s[1..]) by { assert forall k :: 0 <= k < |s[1..]| ==> s[1..][k] == s[k + 1]; }
      SplitNoSep(s[1..]);
      assert [s[0]] + s[1..] == s;
    }
  }

  /** Splitting `a;rest` with a separator-free `a` peels `a` off first. */
  lemma {:induction false} SplitCons(a: string, rest: string)
    requires NoSep(a)
    ensures Split(a + [Sep] + rest) == [a] + Split(rest)
    decreases |a|
  {
    if |a| == 0 {
      assert a + [Sep] + rest == [Sep] + rest;
      assert ([Sep] + rest)[1..] == rest;
    } else {
      var line := a + [Sep] + rest;
      assert line[0] == a[0];
      assert line[1..] == a[1..] + [Sep] + rest;
      assert NoSep(a[1..]) by { assert forall k :: 0 <= k < |a[1..]| ==> a[1..][k] == a[k + 1]; }
      SplitCons(a[1..], rest);
      assert [a[0]] + a[1..] == a;
    }
  }

  /** Joining separator-free fields and splitting the line gives the fields back. */
  lemma {:induction false} SplitJoin(fs: seq<string>)
    requires |fs| >= 1
    requires forall i :: 0 <= i < |fs| ==> NoSep(fs[i])
    ensures Split(Join(fs)) == fs
    decreases |fs|
  {
    if |fs| == 1 {
      SplitNoSep(fs[0]);
    } else {
      SplitCons(fs[0], Join(fs[1..]));
      SplitJoin(fs[1..]);
      assert [fs[0]] + fs[1..] == fs;
    }
  }

  // ---------------------------------------------------------------------
  // Decimal rendering of integers (PHP string interpolation of an int)
  // ---------------------------------------------------------------------

  function DigitChar(d: nat): (c: char)
    requires d < 10
    ensures '0' <= c <= '9'
  {
    "0123456789"[d]
  }

  function DigitValue(c: char): (r: nat)
    requires '0' <= c <= '9'
  {
    c as int - '0' as int
  }

  /** Every character of `s` is a decimal digit. */
  predicate Digits(s: string) {
    forall k :: 0 <= k < |s| ==> '0' <= s[k] <= '9'
  }

  /** A rendered integer: an optional minus sign followed by digits, at least one character. */
  predicate Numeral(s: string) {
    |s| >= 1 && (if s[0] == '-' then Digits(s[1..]) else Digits(s))
  }

  /** The decimal digits of `n`, most significant first, without leading zeros. */
  function NatToString(n: nat): (s: string)
    ensures |s| >= 1 && s[0] != '-'
    ensures Digits(s)
    ensures s[0] == '0' <==> n == 0
    ensures |s| > 1 ==> s[0] != '0'
    decreases n
  {
    if n < 10 then [DigitChar(n)] else NatToString(n / 10) + [DigitChar(n % 10)]
  }

  /** An integer as PHP interpolates it into a string: optional minus sign, then decimal digits. */
  function IntToString(n: int): (s: string)
    ensures NoSep(s)
    ensures Numeral(s)
  {
    if n < 0 then "-" + NatToString(-n) else NatToString(n)
  }

  /** The value of a string of decimal digits. */
  function ParseNat(s: string): (r: nat)
    requires Digits(s)
    decreases |s|
  {
    if |s| == 0 then 0 else 10 * ParseNat(s[..|s| - 1]) + DigitValue(s[|s| - 1])
  }

  /** The value of an interpolated integer. */
  function ParseInt(s: string): (r: int)
    requires Numeral(s)
  {
    if s[0] == '-' then -(ParseNat(s[1..]) as int) else ParseNat(s)
  }

  /** A digit's character has that digit's value. */
  lemma DigitRoundTrip(d: nat)
    requires d < 10
    ensures DigitValue(DigitChar(d)) == d
  {
    var digits := "0123456789";
    assert forall k :: 0 <= k < 10 ==> digits[k] as int == '0' as int + k;
  }

  /** Rendering a natural number in decimal loses nothing. */
  lemma {:induction false} ParseNatToString(n: nat)
    ensures ParseNat(NatToString(n)) == n
    decreases n
  {
    var s := NatToString(n);
    if n < 10 {
      DigitRoundTrip(n);
      assert s[..0] == [];
    } else {
      var q, r := n / 10, n % 10;
      assert s == NatToString(q) + [DigitChar(r)];
      assert s[..|s| - 1] == NatToString(q);
      ParseNatToString(q);
      DigitRoundTrip(r);
      assert ParseNat(s) == 10 * q + r;
    }
  }

  /** Rendering an integer the way PHP interpolates it loses nothing. */
  lemma ParseIntToString(n: int)
    ensures ParseInt(IntToString(n)) == n
  {
    if n < 0 {
      var m: nat := -n;
      assert IntToString(n) == "-" + NatToString(m);
      ParseMinus(m);
    } else {
      ParseNatToString(n);
    }
  }

  /** A minus sign before the digits of `m` is read as `-m`. */
  lemma ParseMinus(m: nat)
    ensures Numeral("-" + NatToString(m))
    ensures ParseInt("-" + NatToString(m)) == -(m as int)
  {
    var digits := NatToString(m);
    var s := "-" + digits;
    assert s[0] == '-' && s[1..] == digits;
    ParseNatToString(m);
  }

  // ---------------------------------------------------------------------
  // `%s` substitution (the part of sprintf the encoder relies on)
  // ---------------------------------------------------------------------

  /** True when every `%` of `fmt` starts a `%s` or a `%%` directive. */
  predicate Supported(fmt: string)
    decreases |fmt|
  {
    if |fmt| == 0 then true
    else if fmt[0] == '%' then |fmt| >= 2 && (fmt[1] == 's' || fmt[1] == '%') && Supported(fmt[2..])
    else Supported(fmt[1..])
  }

  /** The number of `%s` directives in `fmt`, i.e. the arguments it consumes. */
  function SlotCount(fmt: string): (r: nat)
    decreases |fmt|
  {
    if |fmt| == 0 then 0
    else if fmt[0] == '%' && |fmt| >= 2 && fmt[1] == 's' then 1 + SlotCount(fmt[2..])
    else if fmt[0] == '%' && |fmt| >= 2 && fmt[1] == '%' then SlotCount(fmt[2..])
    else SlotCount(fmt[1..])
  }

  /**
   * `sprintf(fmt, args...)` for a template whose directives are `%s` and
   * `%%`: each `%s` takes the next argument, `%%` is a literal percent sign,
   * surplus arguments are ignored.
   */
  function Sprintf(fmt: string, args: seq<string>): (r: string)
    requires Supported(fmt)
    requires SlotCount(fmt) <= |args|
    decreases |fmt|
  {
    if |fmt| == 0 then ""
    else if fmt[0] == '%' && fmt[1] == 's' then args[0] + Sprintf(fmt[2..], args[1..])
    else if fmt[0] == '%' then "%" + Sprintf(fmt[2..], args)
    else [fmt[0]] + Sprintf(fmt[1..], args)
  }

  /** A template without `%` is copied as it stands. */
  lemma {:induction false} SprintfLiteral(s: string, args: seq<string>)
    requires '%' !in s
    ensures Supported(s) && SlotCount(s) == 0
    ensures Sprintf(s, args) == s
    decreases |s|
  {
    if |s| > 0 {
      assert '%' !in s[1..] by { assert forall k :: 0 <= k < |s[1..]| ==> s[1..][k] == s[k + 1]; }
      SprintfLiteral(s[1..], args);
      assert [s[0]] + s[1..] == s;
    }
  }

  /** A leading `%s` takes the first argument. */
  lemma SprintfLeadingSlot(rest: string, a: string, args: seq<string>)
    requires Supported(rest) && SlotCount(rest) <= |args|
    ensures Supported("%s" + rest) && SlotCount("%s" + rest) == 1 + SlotCount(rest)
    ensures Sprintf("%s" + rest, [a] + args) == a + Sprintf(rest, args)
  {
    var fmt := "%s" + rest;
    assert fmt[0] == '%' && fmt[1] == 's' && fmt[2..] == rest;
    assert ([a] + args)[0] == a && ([a] + args)[1..] == args;
  }

  /** A leading ordinary character is copied. */
  lemma SprintfLeadingChar(c: char, tail: string, args: seq<string>)
    requires c != '%'
    requires Supported(tail) && SlotCount(tail) <= |args|
    ensures Supported([c] + tail) && SlotCount([c] + tail) == SlotCount(tail)
    ensures Sprintf([c] + tail, args) == [c] + Sprintf(tail, args)
  {
    var fmt := [c] + tail;
    assert fmt[0] == c && fmt[1..] == tail;
  }

  /** The first `%s` of a template takes the first argument, in place. */
  lemma {:induction false} SprintfSlot(pre: string, rest: string, a: string, args: seq<string>)
    requires '%' !in pre
    requires Supported(rest) && SlotCount(rest) <= |args|
    ensures Supported(pre + "%s" + rest) && SlotCount(pre + "%s" + rest) == 1 + SlotCount(rest)
    ensures Sprintf(pre + "%s" + rest, [a] + args) == pre + a + Sprintf(rest, args)
    decreases |pre|
  {
    if |pre| == 0 {
      assert pre + "%s" + rest == "%s" + rest;
      SprintfLeadingSlot(rest, a, args);
      assert pre + a == a;
    } else {
      var tail := pre[1..] + "%s" + rest;
      assert pre + "%s" + rest == [pre[0]] + tail;
      assert '%' !in pre[1..] by { assert forall k :: 0 <= k < |pre[1..]| ==> pre[1..][k] == pre[k + 1]; }
      SprintfSlot(pre[1..], rest, a, args);
      SprintfLeadingChar(pre[0], tail, [a] + args);
      ConsAssoc(pre, a + Sprintf(rest, args));
    }
  }

  /** Putting back the first character of a non-empty text. */
  lemma ConsAssoc(s: string, t: string)
    requires |s| > 0
    ensures [s[0]] + (s[1..] + t) == s + t
  {
    assert [s[0]] + s[1..] == s;
  }

  /** A one-slot template `pre%spost` puts the argument between `pre` and `post`. */
  lemma OneSlot(pre: string, post: string, a: string)
    requires '%' !in pre && '%' !in post
    ensures Supported(pre + "%s" + post) && SlotCount(pre + "%s" + post) == 1
    ensures Sprintf(pre + "%s" + post, [a]) == pre + a + post
  {
    SprintfLiteral(post, []);
    SprintfSlot(pre, post, a, []);
    assert [a] + [] == [a];
  }

  /** A two-slot template `pre%smid%spost` puts the arguments in order between the literal parts. */
  lemma TwoSlots(pre: string, mid: string, post: string, a: string, b: string)
    requires '%' !in pre && '%' !in mid && '%' !in post
    ensures Supported(pre + "%s" + mid + "%s" + post) && SlotCount(pre + "%s" + mid + "%s" + post) == 2
    ensures Sprintf(pre + "%s" + mid + "%s" + post, [a, b]) == pre + a + mid + b + post
  {
    var rest := mid + "%s" + post;
    var fmt := pre + "%s" + mid + "%s" + post;
    OneSlot(mid, post, b);
    assert Sprintf(rest, [b]) == mid + b + post;
    SprintfSlot(pre, rest, a, [b]);
    assert fmt == pre + "%s" + rest;
    assert [a] + [b] == [a, b];
    assert Sprintf(fmt, [a, b]) == pre + a + (mid + b + post);
    assert pre + a + (mid + b + post) == pre + a + mid + b + post;
  }
}
