/** The change handlers of every input field: `e.target.value.replace(/,/g, '')`. */
module InputText {

  /** Removes every comma; the remaining characters keep their order. */
  function StripCommas(s: string): (r: string)
    ensures ',' !in r
    ensures |r| <= |s|
    ensures forall c :: c != ',' ==> multiset(r)[c] == multiset(s)[c]
  {
    if s == [] then []
    else
      assert s == [s[0]] + s[1..];
      if s[0] == ',' then StripCommas(s[1..]) else [s[0]] + StripCommas(s[1..])
  }

  /** Stripping distributes over concatenation, so the kept characters stay in order. */
  lemma {:induction false} StripCommasAppend(a: string, b: string)
    ensures StripCommas(a + b) == StripCommas(a) + StripCommas(b)
  {
    if a == [] {
      assert a + b == b;
    } else {
      assert (a + b)[1..] == a[1..] + b;
      StripCommasAppend(a[1..], b);
    }
  }

  /** A string without commas is left as it is. */
  lemma {:induction false} StripCommasFree(s: string)
    requires ',' !in s
    ensures StripCommas(s) == s
  {
    if s != [] {
      StripCommasFree(s[1..]);
    }
  }

  /** Stripping twice is stripping once. */
  lemma StripCommasIdempotent(s: string)
    ensures StripCommas(StripCommas(s)) == StripCommas(s)
  {
    StripCommasFree(StripCommas(s));
  }
}
