/**
 * The text a subscriber sends after pressing "add" is turned into an account
 * name by `text.strip().replace("@", "")`: surrounding whitespace is cut off,
 * then every `@` is removed, wherever it stands.
 */
module Username {

  /** The characters Python's `str.isspace` accepts, which is what `strip()` removes. */
  predicate IsSpace(c: char) {
    || c == ' '
    || '\t' <= c <= '\r'
    || '\U{1c}' <= c <= '\U{1f}'
    || c == '\U{85}' || c == '\U{a0}' || c == '\U{1680}'
    || '\U{2000}' <= c <= '\U{200a}'
    || c == '\U{2028}' || c == '\U{2029}' || c == '\U{202f}' || c == '\U{205f}'
    || c == '\U{3000}'
  }

  /** Where `s.lstrip()` starts looking from `i`: the first index at or after `i` that is not whitespace. */
  function SkipLeading(s: string, i: nat): (n: nat)
    requires i <= |s|
    ensures i <= n <= |s|
    ensures forall k :: i <= k < n ==> IsSpace(s[k])
    ensures n == |s| || !IsSpace(s[n])
    decreases |s| - i
  {
    if i < |s| && IsSpace(s[i]) then SkipLeading(s, i + 1) else i
  }

  /** Where `s.rstrip()` ends, looking back from `j` but not below `lo`: the end of the last non-whitespace character. */
  function SkipTrailing(s: string, j: nat, lo: nat): (n: nat)
    requires lo <= j <= |s|
    ensures lo <= n <= j
    ensures forall k :: n <= k < j ==> IsSpace(s[k])
    ensures n == lo || !IsSpace(s[n - 1])
    decreases j
  {
    if lo < j && IsSpace(s[j - 1]) then SkipTrailing(s, j - 1, lo) else j
  }

  /** `s.strip()`: the slice between the leading and the trailing whitespace. */
  function Strip(s: string): (r: string)
    ensures r == [] || (!IsSpace(r[0]) && !IsSpace(r[|r| - 1]))
    ensures exists i, j :: 0 <= i <= j <= |s| && r == s[i..j]
                           && (forall k :: 0 <= k < i ==> IsSpace(s[k]))
                           && (forall k :: j <= k < |s| ==> IsSpace(s[k]))
  {
    var i := SkipLeading(s, 0);
    var j := SkipTrailing(s, |s|, i);
    var r := s[i..j];
    assert 0 <= i <= j <= |s| && r == s[i..j]
           && (forall k :: 0 <= k < i ==> IsSpace(s[k]))
           && (forall k :: j <= k < |s| ==> IsSpace(s[k]));
    r
  }

  /** `s.replace(c, "")`: every occurrence of `c` removed, everything else kept. */
  function RemoveAll(s: string, c: char): (r: string)
    ensures c !in r
    ensures forall x :: x != c ==> multiset(r)[x] == multiset(s)[x]
    ensures c !in s ==> r == s
  {
    if s == [] then []
    else
      assert s == [s[0]] + s[1..];
      (if s[0] == c then [] else [s[0]]) + RemoveAll(s[1..], c)
  }

  /** Every character of a slice comes from the text it is cut from. */
  lemma SliceWithin(s: string, i: nat, j: nat)
    requires i <= j <= |s|
    ensures forall c :: c in s[i..j] ==> c in s
  {
    forall c | c in s[i..j] ensures c in s {
      var k :| 0 <= k < j - i && s[i..j][k] == c;
      assert s[i + k] == c;
    }
  }

  /** Every character `strip()` keeps comes from the text. */
  lemma StripWithin(s: string)
    ensures forall c :: c in Strip(s) ==> c in s
  {
    var i := SkipLeading(s, 0);
    var j := SkipTrailing(s, |s|, i);
    assert Strip(s) == s[i..j];
    SliceWithin(s, i, j);
  }

  /**
   * `replace(c, "")` keeps the order of what it keeps: the result for a
   * concatenation is the concatenation of the results. With the one-character
   * case fixed by the contract of `RemoveAll` (`[x]` is kept when `x != c`,
   * dropped otherwise), this fixes the result for every text.
   */
  lemma {:induction false} RemoveAllAppend(a: string, b: string, c: char)
    ensures RemoveAll(a + b, c) == RemoveAll(a, c) + RemoveAll(b, c)
  {
    if a == [] {
      assert a + b == b;
    } else {
      assert a == [a[0]] + a[1..] && a + b == [a[0]] + (a[1..] + b);
      RemoveAllCons(a[0], a[1..] + b, c);
      RemoveAllAppend(a[1..], b, c);
    }
  }

  lemma RemoveAllCons(x: char, t: string, c: char)
    ensures RemoveAll([x] + t, c) == (if x == c then [] else [x]) + RemoveAll(t, c)
  {
    assert ([x] + t)[0] == x && ([x] + t)[1..] == t;
  }

  /** Every character `replace(c, "")` keeps comes from the text. */
  lemma RemoveAllWithin(s: string, c: char)
    ensures forall x :: x in RemoveAll(s, c) ==> x in s
  {
    var r := RemoveAll(s, c);
    forall x | x in r ensures x in s {
      assert x in multiset(r);
    }
  }

  /** The account name `add_account` stores for the text a subscriber sent. */
  function Normalize(text: string): (name: string)
    ensures '@' !in name
    ensures forall c :: c in name ==> c in text
    ensures '@' !in text && Strip(text) == text ==> name == text
  {
    StripWithin(text);
    RemoveAllWithin(Strip(text), '@');
    RemoveAll(Strip(text), '@')
  }

  /** `" @al ".strip()` is `"@al"`. */
  lemma StripPadded()
    ensures Strip(" @al ") == "@al"
  {
    var s := " @al ";
    assert s[0] == ' ' && s[1] == '@' && s[3] == 'l' && s[4] == ' ';
    assert IsSpace(' ') && !IsSpace('@') && !IsSpace('l');
    assert SkipLeading(s, 1) == 1;
    assert SkipLeading(s, 0) == 1;
    assert SkipTrailing(s, 4, 1) == 4;
    assert SkipTrailing(s, 5, 1) == 4;
    assert s[1..4] == "@al";
  }

  /** `"@al".replace("@", "")` is `"al"`. */
  lemma RemoveLeadingAt()
    ensures RemoveAll("@al", '@') == "al"
  {
    assert "@al"[1..] == "al" && "al"[1..] == "l" && "l"[1..] == [];
    assert RemoveAll("l", '@') == "l";
    assert RemoveAll("al", '@') == "al";
  }

  /** A leading `@` and the blanks around the text are dropped. */
  lemma NormalizeDropsAt()
    ensures Normalize(" @al ") == "al"
  {
    StripPadded();
    RemoveLeadingAt();
  }

  /** `"@ b".strip()` is the text itself. */
  lemma StripBare()
    ensures Strip("@ b") == "@ b"
  {
    var s := "@ b";
    assert s[0] == '@' && s[2] == 'b' && !IsSpace('@') && !IsSpace('b');
    assert SkipLeading(s, 0) == 0;
    assert SkipTrailing(s, 3, 0) == 3;
    assert s[0..3] == s;
  }

  /** `"@ b".replace("@", "")` is `" b"`. */
  lemma RemoveAtBeforeSpace()
    ensures RemoveAll("@ b", '@') == " b"
  {
    assert "@ b"[1..] == " b" && " b"[1..] == "b" && "b"[1..] == [];
    assert RemoveAll("b", '@') == "b";
    assert RemoveAll(" b", '@') == " b";
  }

  /** Whitespace between the `@` and the name survives: stripping happens first. */
  lemma NormalizeKeepsInnerSpace()
    ensures Normalize("@ b") == " b"
  {
    StripBare();
    RemoveAtBeforeSpace();
  }
}
