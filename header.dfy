/** Request header maps as `http.Header.Set` writes them: the key is first put in canonical
    form (net/textproto's `CanonicalMIMEHeaderKey`), then its value is replaced. */
module Header {

  type Header = map<string, string>

  /** Characters allowed in a header field name (an RFC 7230 token). */
  predicate IsTokenChar(c: char) {
    || ('a' <= c <= 'z') || ('A' <= c <= 'Z') || ('0' <= c <= '9')
    || c == '!' || c == '#' || c == '$' || c == '%' || c == '&' || c == '\'' || c == '*' || c == '+'
    || c == '-' || c == '.' || c == '^' || c == '_' || c == '`' || c == '|' || c == '~'
  }

  predicate IsToken(s: string) { forall i :: 0 <= i < |s| ==> IsTokenChar(s[i]) }

  /** The upper-case form of an ASCII letter; any other character is kept. */
  function Up(c: char): char { if 'a' <= c <= 'z' then (c as int - 32) as char else c }

  /** The lower-case form of an ASCII letter; any other character is kept. */
  function Lo(c: char): char { if 'A' <= c <= 'Z' then (c as int + 32) as char else c }

  /** Upper-case the first letter (when `upper`) and every letter after a '-', lower-case
      the rest. */
  function Canonical(s: string, upper: bool): (t: string)
    ensures |t| == |s|
  {
    if s == [] then []
    else
      var d := if upper then Up(s[0]) else Lo(s[0]);
      [d] + Canonical(s[1..], d == '-')
  }

  /** The rule character by character: character i is upper-cased when it is the first
      (and `upper` holds) or follows a '-', and lower-cased otherwise. */
  lemma {:induction false} CanonicalAt(s: string, upper: bool, i: nat)
    requires i < |s|
    ensures Canonical(s, upper)[i] == if (i == 0 && upper) || (i > 0 && s[i - 1] == '-') then Up(s[i]) else Lo(s[i])
  {
    var d := if upper then Up(s[0]) else Lo(s[0]);
    assert (d == '-') <==> (s[0] == '-');
    if i > 0 {
      CanonicalAt(s[1..], d == '-', i - 1);
      assert s[1..][i - 1] == s[i];
      if i > 1 {
        assert s[1..][i - 2] == s[i - 1];
      }
    }
  }

  /** The key `Header.Set` stores under: a key with a non-token character (a space, say)
      is kept as it is. */
  function CanonicalKey(s: string): string {
    if IsToken(s) then Canonical(s, true) else s
  }

  lemma {:induction false} CanonicalIdempotent(s: string, upper: bool)
    ensures IsToken(s) ==> IsToken(Canonical(s, upper))
    ensures Canonical(Canonical(s, upper), upper) == Canonical(s, upper)
  {
    if s != [] {
      var t := Canonical(s, upper);
      CanonicalIdempotent(s[1..], t[0] == '-');
      assert t[1..] == Canonical(s[1..], t[0] == '-');
      if IsToken(s) {
        assert IsToken(s[1..]) by {
          forall i | 0 <= i < |s[1..]| ensures IsTokenChar(s[1..][i]) {
            assert s[1..][i] == s[i + 1];
          }
        }
        forall i | 0 <= i < |t| ensures IsTokenChar(t[i]) {
          if i > 0 {
            assert t[i] == t[1..][i - 1];
          }
        }
      }
    }
  }

  /** Canonicalising a key twice changes nothing more than canonicalising it once. */
  lemma CanonicalKeyIdempotent(s: string)
    ensures CanonicalKey(CanonicalKey(s)) == CanonicalKey(s)
  {
    CanonicalIdempotent(s, true);
  }

  predicate IsLower(c: char) { 'a' <= c <= 'z' }

  predicate IsUpper(c: char) { 'A' <= c <= 'Z' }

  /** A word already in canonical form - its first letter upper-case when `upper`, lower-case
      when not, the rest lower-case - is left as it is. */
  lemma {:induction false} WordCanonical(s: string, upper: bool)
    requires s != [] && s[0] != '-' && (if upper then !IsLower(s[0]) else !IsUpper(s[0]))
    requires forall i :: 0 < i < |s| ==> IsLower(s[i])
    ensures Canonical(s, upper) == s
  {
    if |s| > 1 {
      WordCanonical(s[1..], false);
      assert [s[0]] + s[1..] == s;
    } else {
      assert Canonical(s, upper) == [s[0]] + Canonical(s[1..], false);
      assert [s[0]] == s;
    }
  }

  /** So is a word followed by '-' and a capitalised word. */
  lemma {:induction false} HyphenatedCanonical(a: string, b: string, upper: bool)
    requires a != [] && a[0] != '-' && (if upper then !IsLower(a[0]) else !IsUpper(a[0]))
    requires forall i :: 0 < i < |a| ==> IsLower(a[i])
    requires b != [] && b[0] != '-' && !IsLower(b[0])
    requires forall i :: 0 < i < |b| ==> IsLower(b[i])
    ensures Canonical(a + "-" + b, upper) == a + "-" + b
  {
    var s := a + "-" + b;
    if |a| > 1 {
      assert s[1..] == a[1..] + "-" + b;
      HyphenatedCanonical(a[1..], b, false);
      assert [s[0]] + s[1..] == s;
    } else {
      assert s[1..] == "-" + b && s[1..][1..] == b;
      WordCanonical(b, true);
      assert Canonical(s[1..], false) == "-" + b;
      assert [s[0]] + s[1..] == s;
    }
  }

  /** `h.Set(key, value)`. */
  function Set(h: Header, key: string, value: string): (r: Header)
    ensures CanonicalKey(key) in r && r[CanonicalKey(key)] == value
    ensures forall k :: k != CanonicalKey(key) ==> (k in r <==> k in h) && (k in h ==> r[k] == h[k])
  {
    h[CanonicalKey(key) := value]
  }

  /** `h.Set(k, v)` for every pair, in the order given. */
  function SetAll(h: Header, pairs: seq<(string, string)>): Header {
    if pairs == [] then h
    else
      var last := pairs[|pairs| - 1];
      Set(SetAll(h, pairs[..|pairs| - 1]), last.0, last.1)
  }

  /** The last pair written under a canonical key decides its value. */
  lemma {:induction false} LastWriteWins(h: Header, pairs: seq<(string, string)>, j: nat)
    requires j < |pairs|
    requires forall i :: j < i < |pairs| ==> CanonicalKey(pairs[i].0) != CanonicalKey(pairs[j].0)
    ensures CanonicalKey(pairs[j].0) in SetAll(h, pairs)
    ensures SetAll(h, pairs)[CanonicalKey(pairs[j].0)] == pairs[j].1
  {
    if j < |pairs| - 1 {
      LastWriteWins(h, pairs[..|pairs| - 1], j);
    }
  }

  /** A key no pair canonicalises to keeps its entry, or its absence. */
  lemma {:induction false} NotWritten(h: Header, pairs: seq<(string, string)>, key: string)
    requires forall i :: 0 <= i < |pairs| ==> CanonicalKey(pairs[i].0) != key
    ensures key in SetAll(h, pairs) <==> key in h
    ensures key in h ==> SetAll(h, pairs)[key] == h[key]
  {
    if pairs != [] {
      NotWritten(h, pairs[..|pairs| - 1], key);
    }
  }

  /** Setting pairs keeps every key already there... */
  lemma {:induction false} SetAllKeeps(h: Header, pairs: seq<(string, string)>, key: string)
    requires key in h
    ensures key in SetAll(h, pairs)
  {
    if pairs != [] {
      SetAllKeeps(h, pairs[..|pairs| - 1], key);
    }
  }

  /** ...adds the canonical key of every pair... */
  lemma {:induction false} SetAllAdds(h: Header, pairs: seq<(string, string)>, j: nat)
    requires j < |pairs|
    ensures CanonicalKey(pairs[j].0) in SetAll(h, pairs)
  {
    if j < |pairs| - 1 {
      SetAllAdds(h, pairs[..|pairs| - 1], j);
    }
  }

  /** ...and adds no other key: a new key comes from pair j. */
  lemma {:induction false} SetAllOnly(h: Header, pairs: seq<(string, string)>, key: string) returns (j: nat)
    requires key in SetAll(h, pairs) && key !in h
    ensures j < |pairs| && CanonicalKey(pairs[j].0) == key
  {
    var init, last := pairs[..|pairs| - 1], pairs[|pairs| - 1];
    if CanonicalKey(last.0) == key {
      j := |pairs| - 1;
    } else {
      j := SetAllOnly(h, init, key);
      assert init[j] == pairs[j];
    }
  }
}
