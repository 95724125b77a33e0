/** The string keys under which snapshots are cached and stored: a device uuid, an underscore, a mission id in decimal. */
module KeyCodec {
  import opened Common

  const INT32_MIN: int := -0x8000_0000
  const INT32_MAX: int := 0x7fff_ffff

  predicate IsInt32(n: int) { INT32_MIN <= n <= INT32_MAX }

  // ----- decimal numerals -----

  predicate IsDigit(c: char) { '0' <= c <= '9' }

  predicate AllDigits(s: string) { forall i :: 0 <= i < |s| ==> IsDigit(s[i]) }

  function Digit(n: nat): char
    requires n < 10
  {
    ['0', '1', '2', '3', '4', '5', '6', '7', '8', '9'][n]
  }

  function Digits(n: nat): (s: string)
    ensures s != "" && AllDigits(s)
  {
    if n < 10 then [Digit(n)] else Digits(n / 10) + [Digit(n % 10)]
  }

  /** std::to_string. */
  function ToString(n: int): (s: string)
    ensures s != "" && (n >= 0 ==> AllDigits(s)) && (n < 0 ==> s[0] == '-' && AllDigits(s[1..]))
  {
    if n < 0 then "-" + Digits(-n) else Digits(n)
  }

  function Value(s: string): nat
    requires AllDigits(s)
  {
    if s == "" then 0 else 10 * Value(s[..|s| - 1]) + (s[|s| - 1] as int - '0' as int)
  }

  lemma {:induction false} ValueOfDigits(n: nat)
    ensures Value(Digits(n)) == n
  {
    if n >= 10 {
      ValueOfDigits(n / 10);
      assert Digits(n)[..|Digits(n)| - 1] == Digits(n / 10);
    } else {
      assert Value("") == 0;
    }
  }

  function Pow10(k: nat): nat
  {
    if k == 0 then 1 else 10 * Pow10(k - 1)
  }

  lemma {:induction false} DigitsLength(n: nat, k: nat)
    requires k > 0 && n < Pow10(k)
    ensures |Digits(n)| <= k
  {
    if n >= 10 {
      assert k > 1;
      DigitsLength(n / 10, k - 1);
    }
  }

  lemma IdLength(n: int)
    requires IsInt32(n)
    ensures |ToString(n)| <= 11
  {
    assert Pow10(10) == 10_000_000_000;
    DigitsLength(if n < 0 then -n else n, 10);
  }

  /** StrToInt of the utility library: an optional minus sign, then digits only, in the range of int32_t. */
  function StrToInt(s: string): (r: Option<int>)
    ensures r.Some? ==> IsInt32(r.value)
  {
    if s == "" || (!IsDigit(s[0]) && s[0] != '-') then None else
    var negative := s[0] == '-';
    var digits := if negative then s[1..] else s;
    if digits == "" || !AllDigits(digits) then None else
    var v: int := Value(digits);
    var n := if negative then -v else v;
    if IsInt32(n) then Some(n) else None
  }

  lemma ToStringRoundTrip(n: int)
    requires IsInt32(n)
    ensures StrToInt(ToString(n)) == Some(n)
  {
    hide Digits, Value;
    if n < 0 {
      ValueOfDigits(-n);
      assert ToString(n)[1..] == Digits(-n);
    } else {
      ValueOfDigits(n);
    }
  }

  // ----- keys -----

  function GenerateKey(uuid: DeviceId, missionId: int): string
  {
    uuid + "_" + ToString(missionId)
  }

  /** No two pairs of a device and a mission id share a key, whatever characters the device id holds. */
  lemma KeyInjective(u: DeviceId, m: int, v: DeviceId, n: int)
    requires IsInt32(m) && IsInt32(n) && GenerateKey(u, m) == GenerateKey(v, n)
    ensures u == v && m == n
  {
    NoUnderscore(m);
    NoUnderscore(n);
    if |u| < |v| {
      UnderscoreAfter(u, ToString(m), v, ToString(n));
    } else if |v| < |u| {
      UnderscoreAfter(v, ToString(n), u, ToString(m));
    } else {
      var k := GenerateKey(u, m);
      assert u == k[..|u|] && v == k[..|v|] && k[|u| + 1..] == ToString(m) && k[|v| + 1..] == ToString(n);
      ToStringRoundTrip(m);
      ToStringRoundTrip(n);
    }
  }

  lemma UnderscoreAfter(u: string, x: string, v: string, y: string)
    requires u + "_" + x == v + "_" + y && |u| < |v|
    ensures '_' in x
  {
    assert (u + "_" + x)[|v|] == x[|v| - |u| - 1];
    assert (v + "_" + y)[|v|] == '_';
  }

  lemma NoUnderscore(m: int)
    ensures '_' !in ToString(m) && ' ' !in ToString(m)
  {
    var s := ToString(m);
    if m < 0 {
      assert s == ['-'] + s[1..];
    }
  }

  // ----- parsing -----

  function TrimLeft(s: string): (r: string)
    ensures r != "" ==> r[0] != ' '
    ensures forall c :: c in r ==> c in s
  {
    if s != "" && s[0] == ' ' then TrimLeft(s[1..]) else s
  }

  function TrimRight(s: string): (r: string)
    ensures r != "" ==> s != "" && r[|r| - 1] != ' ' && r[0] == s[0]
    ensures forall c :: c in r ==> c in s
  {
    if s != "" && s[|s| - 1] == ' ' then TrimRight(s[..|s| - 1]) else s
  }

  /** TrimStr of the utility library, for its default character. */
  function Trim(s: string): string { TrimRight(TrimLeft(s)) }

  predicate Trimmed(s: string)
  {
    s != "" ==> s[0] != ' ' && s[|s| - 1] != ' '
  }

  /** The part as a list: nothing if only blanks are left of it. */
  function Kept(s: string): seq<string>
  {
    if Trim(s) == "" then [] else [Trim(s)]
  }

  /** SplitStr of the utility library on an underscore: trimmed parts, empty ones left out. */
  function SplitStr(s: string): seq<string>
  {
    SplitFrom(s, 0)
  }

  function SplitFrom(s: string, k: nat): (parts: seq<string>)
    requires k <= |s| && '_' !in s[..k]
    ensures forall p <- parts :: p != "" && '_' !in p && Trimmed(p)
    decreases |s|, |s| - k
  {
    if k == |s| then
      assert s[..k] == s; Kept(s)
    else if s[k] == '_' then
      Kept(s[..k]) + SplitFrom(s[k + 1..], 0)
    else
      SplitFrom(s, k + 1)
  }

  datatype KeyInfo = KeyInfo(uuid: DeviceId, missionId: int)

  function ParseInfo(key: string): (r: Option<KeyInfo>)
    ensures r.Some? ==> Clean(r.value.uuid) && IsInt32(r.value.missionId)
  {
    var parts := SplitStr(key);
    if |parts| != 2 then None else
    assert parts[0] in parts;
    match StrToInt(parts[1])
    case None => None
    case Some(n) => Some(KeyInfo(parts[0], n))
  }

  /** Device ids that a key can be parsed back to. */
  predicate Clean(uuid: DeviceId)
  {
    uuid != "" && '_' !in uuid && Trimmed(uuid)
  }

  lemma {:induction false} SplitWhole(s: string, k: nat)
    requires k <= |s| && '_' !in s
    ensures SplitFrom(s, k) == Kept(s)
    decreases |s| - k
  {
    if k < |s| {
      SplitWhole(s, k + 1);
    }
  }

  lemma {:induction false} SplitFirst(u: string, s: string, k: nat)
    requires k <= |u| && '_' !in u && '_' !in (u + "_" + s)[..k]
    ensures SplitFrom(u + "_" + s, k) == Kept(u) + SplitFrom(s, 0)
    decreases |u| - k
  {
    var key := u + "_" + s;
    if k < |u| {
      assert key[k] == u[k];
      assert key[..k + 1] == u[..k + 1];
      SplitFirst(u, s, k + 1);
    } else {
      assert key[..k] == u && key[k + 1..] == s;
    }
  }

  /** The key of a device and a mission parses back to them exactly when the device id is clean. */
  lemma ParseRoundTrip(u: DeviceId, m: int)
    requires IsInt32(m)
    ensures ParseInfo(GenerateKey(u, m)) == Some(KeyInfo(u, m)) <==> Clean(u)
  {
    if Clean(u) {
      NoUnderscore(m);
      SplitFirst(u, ToString(m), 0);
      SplitWhole(ToString(m), 0);
      ToStringRoundTrip(m);
    }
  }

  /** A device id that starts with an underscore is taken for the device named by the rest of it. */
  lemma LeadingUnderscoreMisread(u: DeviceId, m: int)
    requires IsInt32(m) && Clean(u)
    ensures ParseInfo(GenerateKey("_" + u, m)) == Some(KeyInfo(u, m))
  {
    NoUnderscore(m);
    var tail := u + "_" + ToString(m);
    assert GenerateKey("_" + u, m) == "" + "_" + tail;
    SplitFirst("", tail, 0);
    SplitFirst(u, ToString(m), 0);
    SplitWhole(ToString(m), 0);
    ToStringRoundTrip(m);
  }

  // ----- deletion by substring -----

  predicate IsAt(s: string, t: string, i: int)
  {
    0 <= i <= |s| - |t| && s[i..i + |t|] == t
  }

  /** Whether `s.find(t)` finds a position. */
  predicate Contains(s: string, t: string)
  {
    exists i :: 0 <= i <= |s| && IsAt(s, t, i)
  }

  /** Where matching a key by substring finds a device id without underscore: in the key's own device id or in its
      mission id, and nowhere else. */
  lemma SubstringExact(u: DeviceId, v: DeviceId, m: int)
    requires '_' !in v
    ensures Contains(GenerateKey(u, m), v) <==> Contains(u, v) || Contains(ToString(m), v)
  {
    hide ToString;
    var key := GenerateKey(u, m);
    if Contains(key, v) {
      var i :| 0 <= i <= |key| && IsAt(key, v, i);
      FoundAt(u, m, v, i);
    }
    if Contains(u, v) {
      var i :| 0 <= i <= |u| && IsAt(u, v, i);
      InConcat([], u, "_" + ToString(m), v, i);
      assert [] + u + ("_" + ToString(m)) == key;
    }
    if Contains(ToString(m), v) {
      var i :| 0 <= i <= |ToString(m)| && IsAt(ToString(m), v, i);
      InConcat(u + "_", ToString(m), [], v, i);
      assert u + "_" + ToString(m) + [] == key;
    }
  }

  lemma InConcat(before: string, s: string, after: string, t: string, i: nat)
    requires IsAt(s, t, i)
    ensures Contains(before + s + after, t)
  {
    var whole, j := before + s + after, |before| + i;
    assert whole[j..j + |t|] == s[i..i + |t|];
    assert IsAt(whole, t, j);
  }

  lemma FoundAt(u: DeviceId, m: int, v: DeviceId, i: nat)
    requires IsAt(GenerateKey(u, m), v, i)
    ensures '_' in v || Contains(u, v) || Contains(ToString(m), v)
  {
    hide ToString;
    var key, n := GenerateKey(u, m), ToString(m);
    if i + |v| <= |u| {
      assert u[i..i + |v|] == key[i..i + |v|];
      assert IsAt(u, v, i);
    } else if i > |u| {
      var j := i - |u| - 1;
      assert n[j..j + |v|] == key[i..i + |v|];
      assert IsAt(n, v, j);
    } else {
      assert key[i..i + |v|][|u| - i] == key[|u|] == '_';
    }
  }

  lemma SameLength(u: DeviceId, v: DeviceId)
    requires |u| == |v|
    ensures Contains(u, v) <==> u == v
  {
    if u == v {
      assert IsAt(u, v, 0);
    }
  }

  /** Among device ids of equal length, the match tells devices apart exactly if the one looked for is not part of the
      mission id. */
  lemma SubstringOfEqualLength(u: DeviceId, v: DeviceId, m: int)
    requires '_' !in v && |u| == |v|
    ensures Contains(GenerateKey(u, m), v) <==> u == v || Contains(ToString(m), v)
  {
    SubstringExact(u, v, m);
    SameLength(u, v);
  }

  predicate Uniform(uuid: DeviceId, length: nat)
  {
    |uuid| == length && '_' !in uuid
  }

  /** For every two devices of this length of id, a key contains a device id exactly when it is a key of that device. */
  ghost predicate TellsApart(length: nat)
  {
    forall u, v, m :: Uniform(u, length) && Uniform(v, length) && IsInt32(m) ==>
                      (Contains(GenerateKey(u, m), v) <==> u == v)
  }

  /** The lengths at which matching by substring is safe are exactly those above 11, besides the empty id. */
  lemma SafeLengths(length: nat)
    ensures TellsApart(length) <==> length > 11 || length == 0
  {
    hide ToString;
    if length > 11 || length == 0 {
      forall u, v, m | Uniform(u, length) && Uniform(v, length) && IsInt32(m)
        ensures Contains(GenerateKey(u, m), v) <==> u == v
      {
        SubstringOfEqualLength(u, v, m);
        IdLength(m);
        if length == 0 {
          assert IsAt(GenerateKey(u, m), v, 0);
        }
      }
    } else {
      var u := seq(length, _ => 'a');
      ShortIdsCollide(u, length);
      var v := "-2147483648"[..length];
      assert u[0] != v[0];
    }
  }

  /** Up to length 11, the key of every device can contain the id of another one. */
  lemma ShortIdsCollide(u: DeviceId, length: nat)
    requires 0 < length <= 11
    ensures Uniform("-2147483648"[..length], length)
    ensures Contains(GenerateKey(u, INT32_MIN), "-2147483648"[..length])
  {
    var n, v := ToString(INT32_MIN), "-2147483648"[..length];
    DigitsOfMin();
    hide ToString;
    assert n[0..length] == v;
    assert IsAt(n, v, 0);
    SubstringExact(u, v, INT32_MIN);
  }

  lemma NextDigit(n: nat, d: nat)
    requires n > 0 && d < 10
    ensures Digits(10 * n + d) == Digits(n) + [Digit(d)]
  {
  }

  lemma DigitsOfMin()
    ensures ToString(INT32_MIN) == "-2147483648"
  {
    hide Digits;
    assert Digits(2) == "2" by { DigitsOfOne(2); }
    NextDigit(2, 1);
    NextDigit(21, 4);
    NextDigit(214, 7);
    NextDigit(2147, 4);
    NextDigit(21474, 8);
    NextDigit(214748, 3);
    NextDigit(2147483, 6);
    NextDigit(21474836, 4);
    NextDigit(214748364, 8);
  }

  lemma DigitsOfOne(d: nat)
    requires d < 10
    ensures Digits(d) == [Digit(d)]
  {
  }
}
