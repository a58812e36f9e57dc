/** Release tags: `balanz-v` and three decimals without leading zeros. Reading a tag as three numbers loses
    nothing, which is what lets versions stand for releases. */
module Tags {

  const PREFIX := "balanz-v"

  predicate Digit(c: char) {
    '0' <= c <= '9'
  }

  /** `0|[1-9][0-9]*` */
  predicate Decimal(s: string) {
    s != "" && (forall k | 0 <= k < |s| :: Digit(s[k])) && (s[0] == '0' ==> |s| == 1)
  }

  /** `str.split('.')` */
  function Split(s: string): (parts: seq<string>)
    ensures |parts| >= 1
  {
    if s == "" then [""]
    else
      var rest := Split(s[1..]);
      if s[0] == '.' then [""] + rest else [[s[0]] + rest[0]] + rest[1..]
  }

  /** `int` of a string of digits. */
  function Value(s: string): nat
    requires forall k | 0 <= k < |s| :: Digit(s[k])
  {
    if s == "" then 0
    else
      var last := s[|s| - 1];
      assert Digit(last);
      10 * Value(s[..|s| - 1]) + (last as int - '0' as int)
  }

  /** The pattern of tags, read part by part. */
  predicate IsTag(t: string) {
    && PREFIX <= t
    && var parts := Split(t[|PREFIX|..]);
       |parts| == 3 && Decimal(parts[0]) && Decimal(parts[1]) && Decimal(parts[2])
  }

  datatype Version = Version(major: nat, minor: nat, patch: nat)

  function VersionOf(t: string): Version
    requires IsTag(t)
  {
    var parts := Split(t[|PREFIX|..]);
    Version(Value(parts[0]), Value(parts[1]), Value(parts[2]))
  }

  /** The order of Python tuples. */
  predicate Lower(a: Version, b: Version) {
    a.major < b.major || (a.major == b.major && (a.minor < b.minor || (a.minor == b.minor && a.patch < b.patch)))
  }

  lemma {:induction false} SplitWithoutDot(s: string)
    requires '.' !in s
    ensures Split(s) == [s]
  {
    if s != "" {
      SplitWithoutDot(s[1..]);
      assert [s[0]] + s[1..] == s && [s[1..]][1..] == [];
    }
  }

  lemma {:induction false} SplitAtDot(a: string, rest: string)
    requires '.' !in a
    ensures Split(a + "." + rest) == [a] + Split(rest)
  {
    if a == "" {
      assert a + "." + rest == "." + rest;
      assert ("." + rest)[1..] == rest;
    } else {
      var tail := a[1..] + "." + rest;
      assert (a + "." + rest)[1..] == tail && (a + "." + rest)[0] == a[0];
      SplitAtDot(a[1..], rest);
      assert Split(tail)[0] == a[1..] && Split(tail)[1..] == Split(rest);
      assert [a[0]] + a[1..] == a;
    }
  }

  function Join(parts: seq<string>): string
    requires |parts| >= 1
  {
    if |parts| == 1 then parts[0] else parts[0] + "." + Join(parts[1..])
  }

  lemma {:induction false} JoinSplit(s: string)
    ensures Join(Split(s)) == s
  {
    if s != "" {
      JoinSplit(s[1..]);
      var rest := Split(s[1..]);
      if s[0] == '.' {
        assert ([""] + rest)[1..] == rest;
      } else {
        assert ([[s[0]] + rest[0]] + rest[1..])[1..] == rest[1..];
      }
    }
  }

  lemma JoinThree(parts: seq<string>)
    requires |parts| == 3
    ensures Join(parts) == parts[0] + "." + (parts[1] + "." + parts[2])
  {
    assert parts[1..][1..] == [parts[2]];
    assert Join([parts[2]]) == parts[2];
    assert Join(parts[1..]) == parts[1] + "." + parts[2];
  }

  /** The part by part reading accepts exactly the texts of the pattern. */
  lemma TagPattern(t: string)
    ensures IsTag(t) <==> exists a: string, b: string, c: string ::
                            Decimal(a) && Decimal(b) && Decimal(c) && t == PREFIX + (a + "." + (b + "." + c))
  {
    if IsTag(t) {
      var parts := Split(t[|PREFIX|..]);
      JoinSplit(t[|PREFIX|..]);
      JoinThree(parts);
      assert t == PREFIX + (parts[0] + "." + (parts[1] + "." + parts[2]));
    }
    if a, b, c :| Decimal(a) && Decimal(b) && Decimal(c) && t == PREFIX + (a + "." + (b + "." + c)) {
      assert t[|PREFIX|..] == a + "." + (b + "." + c);
      SplitThree(a, b, c);
    }
  }

  lemma SplitThree(a: string, b: string, c: string)
    requires Decimal(a) && Decimal(b) && Decimal(c)
    ensures Split(a + "." + (b + "." + c)) == [a, b, c]
  {
    SplitAtDot(a, b + "." + c);
    SplitAtDot(b, c);
    SplitWithoutDot(c);
  }

  /** Decimals without leading zeros are determined by their value. */
  lemma {:induction false} ValueIsInjective(a: string, b: string)
    requires Decimal(a) && Decimal(b) && Value(a) == Value(b)
    ensures a == b
    decreases |a|
  {
    var x, y := a[..|a| - 1], b[..|b| - 1];
    assert a == x + [a[|a| - 1]] && b == y + [b[|b| - 1]];
    assert Value(x) == Value(y) && a[|a| - 1] == b[|b| - 1];
    if x == "" {
      ZeroOnly(y, b);
    } else if y == "" {
      ZeroOnly(x, a);
    } else {
      ValueIsInjective(x, y);
    }
  }

  /** Only the empty head of a decimal has the value zero. */
  lemma {:induction false} ZeroOnly(head: string, whole: string)
    requires Decimal(whole) && head == whole[..|whole| - 1] && Value(head) == 0
    ensures head == ""
  {
    if head != "" {
      assert whole[0] != '0' && head[0] == whole[0];
      PositiveHead(head);
    }
  }

  lemma {:induction false} PositiveHead(s: string)
    requires s != "" && (forall k | 0 <= k < |s| :: Digit(s[k])) && s[0] != '0'
    ensures Value(s) > 0
  {
    if |s| > 1 {
      PositiveHead(s[..|s| - 1]);
    } else {
      assert s[..0] == "";
    }
  }

  /** Two tags have the same version only if they are the same tag. */
  lemma VersionIsInjective(t: string, u: string)
    requires IsTag(t) && IsTag(u) && VersionOf(t) == VersionOf(u)
    ensures t == u
  {
    var p, q := Split(t[|PREFIX|..]), Split(u[|PREFIX|..]);
    ValueIsInjective(p[0], q[0]);
    ValueIsInjective(p[1], q[1]);
    ValueIsInjective(p[2], q[2]);
    assert p == q;
    JoinSplit(t[|PREFIX|..]);
    JoinSplit(u[|PREFIX|..]);
    assert t == PREFIX + t[|PREFIX|..] && u == PREFIX + u[|PREFIX|..];
  }

  /** So any two different releases are strictly ordered. */
  lemma DifferentTagsAreOrdered(t: string, u: string)
    requires IsTag(t) && IsTag(u)
    ensures t != u <==> (Lower(VersionOf(t), VersionOf(u)) != Lower(VersionOf(u), VersionOf(t)))
  {
    if VersionOf(t) == VersionOf(u) {
      VersionIsInjective(t, u);
    }
  }

  // ---- the order, digit by digit -----------------------------------------------------------------

  /** A decimal is a lone zero or digits that do not begin with one. */
  lemma DecimalPattern(s: string)
    ensures Decimal(s) <==> s == "0" || (s != "" && s[0] in "123456789" && forall k | 0 <= k < |s| :: s[k] in "0123456789")
  {
    assert forall c: char :: c in "0123456789" <==> Digit(c);
    assert forall c: char :: c in "123456789" <==> Digit(c) && c != '0';
  }

  /** The value is positional: another digit multiplies by ten and adds the digit. */
  lemma ValueAppends(s: string, d: nat)
    requires d < 10 && forall k | 0 <= k < |s| :: Digit(s[k])
    ensures var longer := s + ["0123456789"[d]];
            (forall k | 0 <= k < |longer| :: Digit(longer[k])) && Value(longer) == 10 * Value(s) + d
    ensures Value("") == 0
  {
    var longer := s + ["0123456789"[d]];
    assert longer[..|longer| - 1] == s;
  }

  /** The tag with these three decimals. */
  predicate Spells(t: string, a: string, b: string, c: string) {
    Decimal(a) && Decimal(b) && Decimal(c) && t == "balanz-v" + (a + "." + (b + "." + c))
  }

  /** Decimals compared place by place. */
  predicate Below(a: string, b: string, c: string, x: string, y: string, z: string)
    requires Decimal(a) && Decimal(b) && Decimal(c) && Decimal(x) && Decimal(y) && Decimal(z)
  {
    || Value(a) < Value(x)
    || (Value(a) == Value(x) && Value(b) < Value(y))
    || (Value(a) == Value(x) && Value(b) == Value(y) && Value(c) < Value(z))
  }

  /** The first tag is older: its decimals are below those of the second at the first place where they differ. */
  ghost predicate Older(t: string, u: string) {
    exists a: string, b: string, c: string, x: string, y: string, z: string ::
      Spells(t, a, b, c) && Spells(u, x, y, z) && Below(a, b, c, x, y, z)
  }

  lemma SpelledVersion(t: string, a: string, b: string, c: string, v: Version)
    requires Spells(t, a, b, c) && v == Version(Value(a), Value(b), Value(c))
    ensures IsTag(t) && VersionOf(t) == v
  {
    TagPattern(t);
    SplitThree(a, b, c);
    assert t[|PREFIX|..] == a + "." + (b + "." + c);
  }

  /** The order of two tags is the numeric order of their parts. */
  lemma LowerByParts(t: string, a: string, b: string, c: string, u: string, x: string, y: string, z: string)
    requires Spells(t, a, b, c) && Spells(u, x, y, z) && IsTag(t) && IsTag(u)
    ensures Lower(VersionOf(t), VersionOf(u)) <==> Below(a, b, c, x, y, z)
  {
    SpelledVersion(t, a, b, c, Version(Value(a), Value(b), Value(c)));
    SpelledVersion(u, x, y, z, Version(Value(x), Value(y), Value(z)));
  }

  lemma OlderIsLower(t: string, u: string)
    requires IsTag(t) && IsTag(u)
    ensures Older(t, u) <==> Lower(VersionOf(t), VersionOf(u))
  {
    forall a, b, c, x, y, z | Spells(t, a, b, c) && Spells(u, x, y, z)
      ensures Lower(VersionOf(t), VersionOf(u)) <==> Below(a, b, c, x, y, z)
    {
      LowerByParts(t, a, b, c, u, x, y, z);
    }
    TagSpelled(t);
    TagSpelled(u);
  }

  lemma TagSpelled(t: string)
    requires IsTag(t)
    ensures exists a: string, b: string, c: string :: Spells(t, a, b, c)
  {
    TagPattern(t);
    var a, b, c :| Decimal(a) && Decimal(b) && Decimal(c) && t == PREFIX + (a + "." + (b + "." + c));
    assert Spells(t, a, b, c);
  }
}
