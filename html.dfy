/**
 * The browser's constraint validation of a form without `novalidate`: a submit whose controls
 * fail their `required` or `type="email"` checks fires no `submit` event at all.
 */
module Html {

  predicate IsAlnum(c: char) {
    'a' <= c <= 'z' || 'A' <= c <= 'Z' || '0' <= c <= '9'
  }

  /** The `atext` characters of RFC 5322 section 3.2.3. */
  predicate IsAtext(c: char) {
    IsAlnum(c) || c in "!#$%&'*+-/=?^_`{|}~"
  }

  /** The first position of `c` in `s`, or `|s|` when there is none. */
  function IndexOf(s: string, c: char): (k: nat)
    ensures k <= |s|
    ensures k < |s| ==> s[k] == c
    ensures forall i :: 0 <= i < k ==> s[i] != c
    decreases |s|
  {
    if s == [] then 0 else if s[0] == c then 0 else 1 + IndexOf(s[1..], c)
  }

  /**
   * A domain label: one to 63 letters, digits and hyphens that starts and ends with a letter or
   * a digit.
   */
  predicate ValidLabel(l: string) {
    && 1 <= |l| <= 63
    && IsAlnum(l[0]) && IsAlnum(l[|l| - 1])
    && forall i :: 0 <= i < |l| ==> IsAlnum(l[i]) || l[i] == '-'
  }

  /** One or more labels separated by single dots. */
  predicate ValidDomain(d: string)
    decreases |d|
  {
    var k := IndexOf(d, '.');
    ValidLabel(d[..k]) && (k == |d| || ValidDomain(d[k + 1..]))
  }

  /**
   * A "valid e-mail address" in the sense of the HTML Living Standard's e-mail state
   * (section 4.10.5.1.5): one or more `atext` characters or dots, an `@`, then a domain. The local
   * part cannot hold an `@`, so the first `@` is the separator.
   */
  predicate ValidEmailAddress(s: string) {
    var k := IndexOf(s, '@');
    && 1 <= k < |s|
    && (forall i :: 0 <= i < k ==> IsAtext(s[i]) || s[i] == '.')
    && ValidDomain(s[k + 1..])
  }

  /** A valid address is never empty and always has an `@` followed by at least one character. */
  lemma ValidEmailShape(s: string)
    requires ValidEmailAddress(s)
    ensures s != ""
    ensures exists k :: 0 < k < |s| - 1 && s[k] == '@'
  {
    var k := IndexOf(s, '@');
    assert ValidLabel(s[k + 1..][..IndexOf(s[k + 1..], '.')]);
    assert 0 < k < |s| - 1 && s[k] == '@';
  }

  /** Text without an `@`, an empty local part and an empty domain are all refused. */
  lemma EmailRefusals()
    ensures !ValidEmailAddress("")
    ensures !ValidEmailAddress("abc")
    ensures !ValidEmailAddress("@b")
    ensures !ValidEmailAddress("a@")
  {
    assert IndexOf("abc", '@') == 3;
    assert IndexOf("@b", '@') == 0;
    assert IndexOf("a@", '@') == 1;
  }

  /** A domain label may not start with a hyphen. */
  lemma HyphenLabelRefused()
    ensures !ValidEmailAddress("a@-b")
  {
    assert IndexOf("a@-b", '@') == 1;
    assert "a@-b"[2..] == "-b";
    assert IndexOf("-b", '.') == 2;
    assert !ValidLabel("-b");
  }

  /** The smallest address shape, one character on each side of the `@`, is accepted. */
  lemma ShortestAddressAccepted()
    ensures ValidEmailAddress("a@b")
  {
    assert IndexOf("a@b", '@') == 1;
    assert "a@b"[2..] == "b";
    assert IndexOf("b", '.') == 1;
    assert ValidLabel("b"[..1]);
  }
}
