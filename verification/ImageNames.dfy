/** Parsing and printing docker image names (blockchain_setup.rs). */
module ImageNames {
  import opened Prelude

  datatype ImageName = ImageName(user: Option<string>, repository: string, tag: string)

  datatype NameError =
    | HasWhitespace
    | InvalidCharacter(c: char, pos: nat)
    | NoAlphanumeric
    | StartsWithColon
    | StartsWithSlash
    | TwoColons
    | TwoSlashes
    | EmptyTag

  predicate IsAlphanumeric(c: char) {
    '0' <= c <= '9' || 'a' <= c <= 'z' || 'A' <= c <= 'Z'
  }

  /** The characters with Unicode property White_Space. */
  predicate IsWhitespace(c: char) {
    '\t' <= c <= '\r' || c == ' ' || c == '\U{85}' || c == '\U{A0}' || c == '\U{1680}' ||
    '\U{2000}' <= c <= '\U{200A}' || c == '\U{2028}' || c == '\U{2029}' || c == '\U{202F}' || c == '\U{205F}' ||
    c == '\U{3000}'
  }

  predicate IsSpecial(c: char) {
    c == '-' || c == '_' || c == '.' || c == '/' || c == ':'
  }

  predicate Allowed(c: char) {
    IsAlphanumeric(c) || IsSpecial(c)
  }

  function Count(s: string, c: char): nat {
    if s == "" then 0 else (if s[0] == c then 1 else 0) + Count(s[1..], c)
  }

  /** Splitting at the first c; the second part is empty when there is none. */
  function Before(s: string, c: char): string {
    if s == "" || s[0] == c then "" else [s[0]] + Before(s[1..], c)
  }

  function After(s: string, c: char): string {
    if s == "" then "" else if s[0] == c then s[1..] else After(s[1..], c)
  }

  function ToBaseName(n: ImageName): string {
    (match n.user { case Some(user) => user + "/" case None => "" }) + n.repository
  }

  function ToNormalizedName(n: ImageName): string {
    ToBaseName(n) + ":" + n.tag
  }

  /** The split into user, repository and tag once the characters have been checked. */
  function Split(s: string): ImageName {
    var base := if Count(s, ':') > 0 then Before(s, ':') else s;
    var tag := if Count(s, ':') > 0 then After(s, ':') else "latest";
    if Count(base, '/') > 0 then ImageName(Some(Before(base, '/')), Before(After(base, '/'), '/'), tag)
    else ImageName(None, base, tag)
  }

  predicate WellFormed(s: string) {
    && (forall i :: 0 <= i < |s| ==> Allowed(s[i]))
    && (exists i :: 0 <= i < |s| && IsAlphanumeric(s[i]))
    && s[0] != ':' && s[0] != '/'
    && Count(s, ':') <= 1 && Count(s, '/') <= 1
    && Split(s).tag != ""
  }

  predicate AllowedUpTo(s: string, n: nat) {
    forall i :: 0 <= i < |s| && i < n ==> Allowed(s[i])
  }

  /** The defect an error reports is one the text has. */
  predicate Explains(s: string, e: NameError) {
    match e
    case HasWhitespace => exists i :: 0 <= i < |s| && IsWhitespace(s[i])
    case InvalidCharacter(c, pos) => pos < |s| && s[pos] == c && !Allowed(c) && AllowedUpTo(s, pos)
    case NoAlphanumeric => forall i :: 0 <= i < |s| ==> IsSpecial(s[i])
    case StartsWithColon => ":" <= s
    case StartsWithSlash => "/" <= s
    case TwoColons => Count(s, ':') > 1
    case TwoSlashes => Count(s, '/') > 1
    case EmptyTag => Count(s, ':') == 1 && After(s, ':') == ""
  }

  /** from_str_name: succeeds exactly on well-formed names. */
  method FromStrName(s: string) returns (r: Result<ImageName, NameError>)
    ensures r.Ok? <==> WellFormed(s)
    ensures r.Ok? ==> r.value == Split(s)
    ensures r.Err? ==> Explains(s, r.error)
  {
    var containsAlpha := false;
    for pos := 0 to |s|
      invariant forall i :: 0 <= i < pos ==> Allowed(s[i])
      invariant containsAlpha <==> exists i :: 0 <= i < pos && IsAlphanumeric(s[i])
    {
      var c := s[pos];
      if IsWhitespace(c) {
        return Err(HasWhitespace);
      }
      if IsAlphanumeric(c) {
        containsAlpha := true;
      } else if !IsSpecial(c) {
        return Err(InvalidCharacter(c, pos));
      }
    }
    if !containsAlpha {
      return Err(NoAlphanumeric);
    }
    if ":" <= s {
      return Err(StartsWithColon);
    }
    if "/" <= s {
      return Err(StartsWithSlash);
    }
    if Count(s, ':') > 1 {
      return Err(TwoColons);
    }
    if Count(s, '/') > 1 {
      return Err(TwoSlashes);
    }
    var basePart, tagPart := s, "latest";
    if Count(s, ':') > 0 {
      basePart, tagPart := Before(s, ':'), After(s, ':');
    }
    if tagPart == "" {
      return Err(EmptyTag);
    }
    var user, repo := None, basePart;
    if Count(basePart, '/') > 0 {
      user, repo := Some(Before(basePart, '/')), Before(After(basePart, '/'), '/');
    }
    return Ok(ImageName(user, repo, tagPart));
  }

  // ---- the round trip ----

  lemma {:induction false} CountConcat(a: string, b: string, c: char)
    ensures Count(a + b, c) == Count(a, c) + Count(b, c)
  {
    if a == "" {
      assert a + b == b;
    } else {
      assert (a + b)[1..] == a[1..] + b;
      CountConcat(a[1..], b, c);
    }
  }

  lemma {:induction false} SplitParts(s: string, c: char)
    ensures Count(Before(s, c), c) == 0
    ensures if Count(s, c) == 0 then Before(s, c) == s && After(s, c) == "" else s == Before(s, c) + [c] + After(s, c)
  {
    if s != "" && s[0] != c {
      SplitParts(s[1..], c);
      assert s == [s[0]] + s[1..];
      assert Before(s, c)[1..] == Before(s[1..], c);
    }
  }

  lemma {:induction false} SplitJoined(a: string, b: string, c: char)
    requires Count(a, c) == 0
    ensures Before(a + [c] + b, c) == a && After(a + [c] + b, c) == b
  {
    if a == "" {
      assert a + [c] + b == [c] + b;
    } else {
      SplitJoined(a[1..], b, c);
      assert (a + [c] + b)[1..] == a[1..] + [c] + b;
    }
  }

  /** What the parts of a parsed name look like. */
  predicate PartsFit(n: ImageName) {
    && Count(ToBaseName(n), ':') == 0 && Count(n.tag, ':') == 0 && n.tag != ""
    && Count(n.repository, '/') == 0
    && (n.user.Some? ==> Count(n.user.value, '/') == 0 && Count(n.tag, '/') == 0)
    && Count(n.tag, '/') <= 1
  }

  lemma CountJoined(a: string, m: char, b: string, c: char)
    ensures Count(a + [m] + b, c) == Count(a, c) + (if m == c then 1 else 0) + Count(b, c)
  {
    CountConcat(a, [m], c);
    CountConcat(a + [m], b, c);
    assert [m][1..] == "";
  }

  /** The part before the tag splits into user and repository without losing anything. */
  lemma BaseFits(base: string, tag: string)
    requires Count(base, '/') <= 1
    ensures var n := if Count(base, '/') > 0
                     then ImageName(Some(Before(base, '/')), Before(After(base, '/'), '/'), tag)
                     else ImageName(None, base, tag);
            && ToBaseName(n) == base && Count(n.repository, '/') == 0
            && (n.user.Some? ==> Count(n.user.value, '/') == 0 && Count(base, '/') == 1)
  {
    SplitParts(base, '/');
    if Count(base, '/') > 0 {
      var user, rest := Before(base, '/'), After(base, '/');
      CountJoined(user, '/', rest, '/');
      SplitParts(rest, '/');
    } else {
      assert "" + base == base;
    }
  }

  lemma SplitFits(s: string)
    requires WellFormed(s)
    ensures PartsFit(Split(s))
    ensures ToNormalizedName(Split(s)) == if Count(s, ':') > 0 then s else s + ":latest"
  {
    hide Count, Before, After;
    LatestHasNone();
    SplitParts(s, ':');
    if Count(s, ':') > 0 {
      var base, tag := Before(s, ':'), After(s, ':');
      CountJoined(base, ':', tag, ':');
      CountJoined(base, ':', tag, '/');
      BaseFits(base, tag);
    } else {
      BaseFits(s, "latest");
      AppendTag(s);
    }
  }

  lemma AppendTag(s: string)
    ensures s + ":" + "latest" == s + ":latest"
    ensures Count(s + ":latest", '/') == Count(s, '/')
  {
    assert s + ":" + "latest" == s + ":latest";
    LatestHasNone();
    CountJoined(s, ':', "latest", '/');
  }

  lemma LatestHasNone()
    ensures Count("latest", ':') == 0 && Count("latest", '/') == 0
  {
    var s := "latest";
    assert s[1..] == "atest" && s[1..][1..] == "test" && "test"[1..] == "est" && "est"[1..] == "st" && "st"[1..] == "t";
  }

  /** A name whose parts fit is split back into the same parts. */
  lemma SplitOfPrinted(n: ImageName)
    requires PartsFit(n)
    ensures Split(ToNormalizedName(n)) == n && Count(ToNormalizedName(n), ':') == 1
  {
    var base, s := ToBaseName(n), ToNormalizedName(n);
    SplitJoined(base, n.tag, ':');
    CountConcat(base, [':'], ':');
    CountConcat(base + [':'], n.tag, ':');
    if n.user.Some? {
      var user := n.user.value;
      assert base == user + ['/'] + n.repository;
      SplitJoined(user, n.repository, '/');
      CountConcat(user, ['/'], '/');
      CountConcat(user + ['/'], n.repository, '/');
      SplitParts(n.repository, '/');
    } else {
      assert base == n.repository;
    }
  }

  lemma PrintedIsWellFormed(s: string)
    requires WellFormed(s)
    ensures WellFormed(ToNormalizedName(Split(s)))
  {
    hide Count, Before, After, ToBaseName, Split, ToNormalizedName;
    SplitFits(s);
    SplitOfPrinted(Split(s));
    var t := ToNormalizedName(Split(s));
    if Count(s, ':') == 0 {
      AppendTag(s);
      TagIsAllowed(s);
      assert t[0] == s[0];
    }
  }

  lemma TagIsAllowed(s: string)
    requires forall i :: 0 <= i < |s| ==> Allowed(s[i])
    requires exists i :: 0 <= i < |s| && IsAlphanumeric(s[i])
    ensures var t := s + ":latest";
            (forall i :: 0 <= i < |t| ==> Allowed(t[i])) && exists i :: 0 <= i < |t| && IsAlphanumeric(t[i])
  {
    var t := s + ":latest";
    var i :| 0 <= i < |s| && IsAlphanumeric(s[i]);
    assert t[i] == s[i];
  }

  /** If a name parses, its normalised print parses to the same user, repository and tag. */
  lemma NormalizedParsesBack(s: string)
    requires WellFormed(s)
    ensures WellFormed(ToNormalizedName(Split(s))) && Split(ToNormalizedName(Split(s))) == Split(s)
  {
    hide WellFormed, Split, ToNormalizedName;
    PrintedIsWellFormed(s);
    SplitFits(s);
    SplitOfPrinted(Split(s));
  }

  /** Normalising only ever appends the default tag, and normalising twice changes nothing more. */
  lemma NormalizingIsIdempotent(s: string)
    requires WellFormed(s)
    ensures var t := ToNormalizedName(Split(s));
            && (t == s || t == s + ":latest")
            && (t == s <==> Count(s, ':') == 1)
            && ToNormalizedName(Split(t)) == t
  {
    SplitFits(s);
    NormalizedParsesBack(s);
    if Count(s, ':') == 0 { assert |s + ":latest"| > |s|; }
  }

  /** Two names with the same normal form are the same image, and no others are. */
  lemma SameNormalFormIff(s: string, t: string)
    requires WellFormed(s) && WellFormed(t)
    ensures ToNormalizedName(Split(s)) == ToNormalizedName(Split(t)) <==> Split(s) == Split(t)
  {
    NormalizedParsesBack(s);
    NormalizedParsesBack(t);
  }
}
