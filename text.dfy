/**
 * The field checks the model classes run before they store a value. The source
 * writes them as `len(value.strip()) > 0` and `re.search(pattern, value)`; each is
 * a function here, and each comes with a lemma that says in plain character terms
 * which strings it accepts, or with a reference definition of the regular
 * expression it stands for.
 */
module Text {

  /** Python's `str.isspace()`: the characters `str.strip()` removes from both ends. */
  predicate IsSpace(c: char) {
    var n := c as int;
    (9 <= n <= 13) || (28 <= n <= 32) || n == 0x85 || n == 0xA0 || n == 0x1680
    || (0x2000 <= n <= 0x200A) || n == 0x2028 || n == 0x2029 || n == 0x202F
    || n == 0x205F || n == 0x3000
  }

  /** `s.lstrip()`: the suffix of `s` left once its leading white space is gone. */
  function TrimStart(s: string): string {
    if s != [] && IsSpace(s[0]) then TrimStart(s[1..]) else s
  }

  /** `lstrip` removes a prefix of white space, and what remains does not start with white space. */
  lemma {:induction false} TrimStartSpec(s: string)
    ensures var r := TrimStart(s);
      && |r| <= |s| && r == s[|s| - |r|..]
      && (forall i :: 0 <= i < |s| - |r| ==> IsSpace(s[i]))
      && (r == [] || !IsSpace(r[0]))
  {
    if s != [] && IsSpace(s[0]) {
      var t := s[1..];
      TrimStartSpec(t);
      var r := TrimStart(t);
      assert TrimStart(s) == r;
      assert t[|t| - |r|..] == s[|s| - |r|..];
      forall i | 0 <= i < |s| - |r| ensures IsSpace(s[i]) {
        if i > 0 { assert s[i] == t[i - 1]; }
      }
    }
  }

  /** `s.rstrip()`: the prefix of `s` left once its trailing white space is gone. */
  function TrimEnd(s: string): string {
    if s != [] && IsSpace(s[|s| - 1]) then TrimEnd(s[..|s| - 1]) else s
  }

  /** `rstrip` removes a suffix of white space, and what remains does not end with white space. */
  lemma {:induction false} TrimEndSpec(s: string)
    ensures var r := TrimEnd(s);
      && |r| <= |s| && r == s[..|r|]
      && (forall i :: |r| <= i < |s| ==> IsSpace(s[i]))
      && (r == [] || !IsSpace(r[|r| - 1]))
  {
    if s != [] && IsSpace(s[|s| - 1]) {
      var t := s[..|s| - 1];
      TrimEndSpec(t);
      var r := TrimEnd(t);
      assert TrimEnd(s) == r;
      assert t[..|r|] == s[..|r|];
      forall i | |r| <= i < |s| ensures IsSpace(s[i]) {
        if i < |s| - 1 { assert s[i] == t[i]; }
      }
    }
  }

  /** `s.strip()` */
  function Strip(s: string): string {
    TrimEnd(TrimStart(s))
  }

  /** `len(s.strip()) > 0`, which is also the truth value of `s.strip()`. */
  predicate HasContent(s: string) {
    |Strip(s)| > 0
  }

  /** A string has content after stripping exactly when one of its characters is not white space. */
  lemma HasContentIff(s: string)
    ensures HasContent(s) <==> exists i :: 0 <= i < |s| && !IsSpace(s[i])
  {
    var a := TrimStart(s);
    var b := TrimEnd(a);
    TrimStartSpec(s);
    TrimEndSpec(a);
    if |b| > 0 {
      assert a[0] == s[|s| - |a|];
    }
    if exists i :: 0 <= i < |s| && !IsSpace(s[i]) {
      var i :| 0 <= i < |s| && !IsSpace(s[i]);
      var j := i - (|s| - |a|);
      assert 0 <= j < |a| && a[j] == s[i];
    }
  }

  predicate IsAsciiLetter(c: char) {
    'a' <= c <= 'z' || 'A' <= c <= 'Z'
  }

  predicate IsAsciiDigit(c: char) {
    '0' <= c <= '9'
  }

  /** The bracketed character classes the source's patterns use. */
  datatype CharClass =
    | Letters         // [a-zA-Z]
    | LettersOrSpace  // [a-zA-Z ]
    | Upper           // [A-Z]
    | EmailLocal      // [a-zA-Z0-9+_.-]
    | EmailDomain     // [a-zA-Z0-9.-]

  predicate InClass(c: char, cls: CharClass) {
    match cls
    case Letters => IsAsciiLetter(c)
    case LettersOrSpace => IsAsciiLetter(c) || c == ' '
    case Upper => 'A' <= c <= 'Z'
    case EmailLocal => IsAsciiLetter(c) || IsAsciiDigit(c) || c == '+' || c == '_' || c == '.' || c == '-'
    case EmailDomain => IsAsciiLetter(c) || IsAsciiDigit(c) || c == '.' || c == '-'
  }

  predicate AllIn(s: string, cls: CharClass) {
    forall i :: 0 <= i < |s| ==> InClass(s[i], cls)
  }

  /**
   * Where Python's `$` (without MULTILINE) matches: at the end of the string, and
   * also just before a newline that is the string's last character.
   */
  predicate EndsAt(s: string, k: nat) {
    k == |s| || (k + 1 == |s| && s[k] == '\n')
  }

  /** The part of `s` a pattern ending in `$` has to cover: `s` without one final newline. */
  function Chomp(s: string): (r: string)
    ensures r == s || (r + "\n" == s)
  {
    if |s| > 0 && s[|s| - 1] == '\n' then s[..|s| - 1] else s
  }

  /** `re.search("^[C]+$", s)` for the class C, as the code evaluates it. */
  predicate MatchesRun(s: string, cls: CharClass) {
    |Chomp(s)| > 0 && AllIn(Chomp(s), cls)
  }

  /** The meaning of `^[C]+$` under Python's rules: a non-empty run of C from the start, then `$`. */
  ghost predicate SearchRun(s: string, cls: CharClass) {
    exists k: nat :: 0 < k <= |s| && AllIn(s[..k], cls) && EndsAt(s, k)
  }

  lemma MatchesRunIsSearch(s: string, cls: CharClass)
    ensures MatchesRun(s, cls) <==> SearchRun(s, cls)
  {
    var t := Chomp(s);
    if MatchesRun(s, cls) {
      assert s[..|t|] == t;
      assert EndsAt(s, |t|);
    }
    if SearchRun(s, cls) {
      var k: nat :| 0 < k <= |s| && AllIn(s[..k], cls) && EndsAt(s, k);
      if k == |s| {
        assert s[..k] == s;
        assert InClass(s[k - 1], cls);
      } else {
        assert t == s[..k];
      }
    }
  }

  /** The index of the first `c` in `s`, or `|s|` when there is none. */
  function IndexOf(s: string, c: char): (i: nat)
    ensures i <= |s|
  {
    if s == [] then 0 else if s[0] == c then 0 else 1 + IndexOf(s[1..], c)
  }

  /** `IndexOf` finds the first occurrence, or none. */
  lemma {:induction false} IndexOfSpec(s: string, c: char)
    ensures var i := IndexOf(s, c);
      && (i < |s| ==> s[i] == c)
      && (forall j :: 0 <= j < i ==> s[j] != c)
  {
    if s != [] && s[0] != c {
      IndexOfSpec(s[1..], c);
    }
  }

  /** `re.search("^[a-zA-Z0-9+_.-]+@[a-zA-Z0-9.-]+$", s)`, as the code evaluates it. */
  predicate MatchesEmail(s: string) {
    var t := Chomp(s);
    var at := IndexOf(t, '@');
    0 < at && at + 1 < |t| && AllIn(t[..at], EmailLocal) && AllIn(t[at + 1..], EmailDomain)
  }

  /** The meaning of the e-mail pattern under Python's rules. */
  ghost predicate SearchEmail(s: string) {
    exists at: nat, k: nat ::
      0 < at && at + 1 < k <= |s| && s[at] == '@' && EndsAt(s, k)
      && AllIn(s[..at], EmailLocal) && AllIn(s[at + 1..k], EmailDomain)
  }

  lemma MatchesEmailIsSearch(s: string)
    ensures MatchesEmail(s) <==> SearchEmail(s)
  {
    var t := Chomp(s);
    IndexOfSpec(t, '@');
    if MatchesEmail(s) {
      var at := IndexOf(t, '@');
      assert s[..at] == t[..at];
      assert s[at + 1..|t|] == t[at + 1..];
      assert EndsAt(s, |t|);
    }
    if SearchEmail(s) {
      var at: nat, k: nat :| 0 < at && at + 1 < k <= |s| && s[at] == '@' && EndsAt(s, k)
        && AllIn(s[..at], EmailLocal) && AllIn(s[at + 1..k], EmailDomain);
      if k == |s| {
        assert s[at + 1..k][k - at - 2] == s[k - 1];
        assert t == s;
      } else {
        assert t == s[..k];
      }
      assert t[..at] == s[..at];
      assert t[at + 1..] == s[at + 1..k];
      forall j | 0 <= j < at ensures t[j] != '@' {
        assert InClass(s[..at][j], EmailLocal);
      }
      assert IndexOf(t, '@') == at;
    }
  }

  /** `User.first_name` and `User.last_name` (models/user.py). */
  predicate IsValidPersonName(v: string) {
    HasContent(v) && MatchesRun(v, Letters)
  }

  /** The `name` of a `Country`, a `City` and a `Place`. */
  predicate IsValidName(v: string) {
    HasContent(v) && MatchesRun(v, LettersOrSpace)
  }

  /** `User.email` */
  predicate IsValidEmail(v: string) {
    HasContent(v) && MatchesEmail(v)
  }

  /** `User.password` */
  predicate IsValidPassword(v: string) {
    |v| >= 6
  }

  /** `Country.code`: the pattern `^[A-Z][A-Z]$` is a run of exactly two upper-case letters. */
  predicate IsValidCountryCode(v: string) {
    HasContent(v) && MatchesRun(v, Upper) && |Chomp(v)| == 2
  }

  /** A character that is not white space gives a string content after stripping. */
  lemma HasContentAt(s: string, i: nat)
    requires i < |s| && !IsSpace(s[i])
    ensures HasContent(s)
  {
    var a := TrimStart(s);
    TrimStartSpec(s);
    TrimEndSpec(a);
    var j := i - (|s| - |a|);
    assert 0 <= j < |a| && a[j] == s[i];
  }

  /** For an e-mail address the blank check adds nothing: the pattern already demands a non-space first character. */
  lemma EmailIff(v: string)
    ensures IsValidEmail(v) <==> MatchesEmail(v)
  {
    if MatchesEmail(v) {
      var t := Chomp(v);
      assert t[..IndexOf(t, '@')][0] == v[0];
      assert InClass(v[0], EmailLocal);
      HasContentAt(v, 0);
    }
  }

  /**
   * A person's name is accepted exactly when it is ASCII letters only, possibly
   * followed by one newline: no spaces, hyphens or apostrophes, and the blank check
   * adds nothing to the pattern.
   */
  lemma PersonNameIff(v: string)
    ensures IsValidPersonName(v) <==>
      (|v| > 0 && AllIn(v, Letters)) || (|v| > 1 && v[|v| - 1] == '\n' && AllIn(v[..|v| - 1], Letters))
  {
    var t := Chomp(v);
    if |v| > 0 && v[|v| - 1] == '\n' {
      assert t == v[..|v| - 1];
      if |t| > 0 && AllIn(t, Letters) {
        assert IsAsciiLetter(t[0]) && t[0] == v[0];
        HasContentAt(v, 0);
      }
    } else {
      assert t == v;
      if |v| > 0 && AllIn(v, Letters) {
        assert IsAsciiLetter(v[0]);
        HasContentAt(v, 0);
      }
    }
  }

  /**
   * A country, city or place name is accepted exactly when it is ASCII letters and
   * spaces (possibly followed by one newline) with at least one letter among them.
   */
  lemma NameIff(v: string)
    ensures IsValidName(v) <==>
      MatchesRun(v, LettersOrSpace) && exists i :: 0 <= i < |v| && IsAsciiLetter(v[i])
  {
    var t := Chomp(v);
    if IsValidName(v) {
      HasContentIff(v);
      var i :| 0 <= i < |v| && !IsSpace(v[i]);
      assert i < |t|;
      assert t[i] == v[i];
      assert InClass(t[i], LettersOrSpace);
    }
    if MatchesRun(v, LettersOrSpace) && exists i :: 0 <= i < |v| && IsAsciiLetter(v[i]) {
      var i :| 0 <= i < |v| && IsAsciiLetter(v[i]);
      HasContentAt(v, i);
    }
  }

  /** A country code is accepted exactly when it is two upper-case ASCII letters, possibly followed by one newline. */
  lemma CountryCodeIff(v: string)
    ensures IsValidCountryCode(v) <==>
      (|v| == 2 || (|v| == 3 && v[2] == '\n')) && 'A' <= v[0] <= 'Z' && 'A' <= v[1] <= 'Z'
  {
    var t := Chomp(v);
    if |v| > 0 && v[|v| - 1] == '\n' {
      assert t == v[..|v| - 1];
    } else {
      assert t == v;
    }
    if |t| == 2 && 'A' <= t[0] <= 'Z' {
      HasContentAt(v, 0);
    }
    if |t| == 2 {
      assert AllIn(t, Upper) <==> InClass(t[0], Upper) && InClass(t[1], Upper);
    }
  }

  /** Python's `$` lets a name through with a newline after it. */
  lemma PersonNameTakesFinalNewline()
    ensures IsValidPersonName("Ada\n")
  {
    PersonNameIff("Ada\n");
    assert "Ada\n"[..3] == "Ada";
  }

  /** A person's name may hold neither a hyphen nor a space: neither is a letter. */
  lemma PersonNameRefusesHyphenAndSpace()
    ensures !IsValidPersonName("Obi-wan")
    ensures !IsValidPersonName("Ada Lovelace")
  {
    PersonNameIff("Obi-wan");
    assert !InClass("Obi-wan"[3], Letters);
    PersonNameIff("Ada Lovelace");
    assert !InClass("Ada Lovelace"[3], Letters);
  }

  /** A name of spaces only matches the pattern and is still refused by the blank check. */
  lemma NameRefusesBlank()
    ensures MatchesRun("   ", LettersOrSpace) && !IsValidName("   ")
  {
    NameIff("   ");
    assert Chomp("   ") == "   ";
  }

  /** Lower case, three letters and a digit are all refused as a country code. */
  lemma CountryCodeExamples()
    ensures IsValidCountryCode("US") && !IsValidCountryCode("us") && !IsValidCountryCode("USA") && !IsValidCountryCode("U1")
  {
    CountryCodeIff("US");
    CountryCodeIff("us");
    CountryCodeIff("USA");
    CountryCodeIff("U1");
  }

  /** An e-mail address of the usual shape is accepted. */
  lemma EmailAccepted()
    ensures IsValidEmail("ada@x.com")
  {
    var e := "ada@x.com";
    HasContentAt(e, 0);
    assert Chomp(e) == e;
    assert IndexOf(e, '@') == 3;
    assert e[..3] == "ada";
    assert e[4..] == "x.com";
    assert AllIn("ada", EmailLocal);
    assert AllIn("x.com", EmailDomain);
  }

  /** An address without a local part, without a domain, or without an `@` is refused. */
  lemma EmailRefused()
    ensures !IsValidEmail("ada@") && !IsValidEmail("@x.com") && !IsValidEmail("ada")
  {
    assert Chomp("ada@") == "ada@";
    assert IndexOf("ada@", '@') == 3;
    assert Chomp("@x.com") == "@x.com";
    assert IndexOf("@x.com", '@') == 0;
    assert Chomp("ada") == "ada";
    assert IndexOf("ada", '@') == 3;
  }
}
