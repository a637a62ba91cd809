/** Resource URIs of the Specify REST API (session.py:36-59).

    A resource is addressed as `/api/specify/<table>/<id>/`. `ConstructApiLink`
    builds such a URI; `ParseUri` takes one apart the way the regular expression
    `^\/api\/specify\/(\w+)\/($|(\d+))` does: anchored at the start only, so
    whatever follows the digit run is ignored. Character classes are ASCII. */
module Uri {
  import opened Outcomes

  const ApiPrefix: string := "/api/specify/"

  predicate IsDigit(c: char) { '0' <= c <= '9' }

  /** A character of the regular-expression class `\w`. */
  predicate IsWordChar(c: char) {
    'a' <= c <= 'z' || 'A' <= c <= 'Z' || IsDigit(c) || c == '_'
  }

  predicate IsWord(s: string) { forall i | 0 <= i < |s| :: IsWordChar(s[i]) }

  predicate IsDigits(s: string) { forall i | 0 <= i < |s| :: IsDigit(s[i]) }

  function LowerChar(c: char): char {
    if 'A' <= c <= 'Z' then (c as int + 32) as char else c
  }

  /** `str.lower()` on ASCII text. */
  function Lower(s: string): (r: string)
    ensures |r| == |s|
    ensures forall i | 0 <= i < |s| :: r[i] == LowerChar(s[i])
  {
    seq(|s|, i requires 0 <= i < |s| => LowerChar(s[i]))
  }

  /** How far `\w+` reaches from the start of `s`: the longest word prefix. */
  function WordRun(s: string): (n: nat)
    ensures n <= |s| && IsWord(s[..n])
    ensures n < |s| ==> !IsWordChar(s[n])
  {
    if s == [] || !IsWordChar(s[0]) then 0
    else
      var m := WordRun(s[1..]);
      assert s[..m + 1] == [s[0]] + s[1..][..m];
      m + 1
  }

  /** How far `\d+` reaches from the start of `s`: the longest digit prefix. */
  function DigitRun(s: string): (n: nat)
    ensures n <= |s| && IsDigits(s[..n])
    ensures n < |s| ==> !IsDigit(s[n])
  {
    if s == [] || !IsDigit(s[0]) then 0
    else
      var m := DigitRun(s[1..]);
      assert s[..m + 1] == [s[0]] + s[1..][..m];
      m + 1
  }

  function DigitChar(d: nat): char
    requires d < 10
  {
    ('0' as int + d) as char
  }

  function DigitValue(c: char): nat
    requires IsDigit(c)
  {
    c as int - '0' as int
  }

  /** Decimal text of a natural number, as `str(n)` writes it. */
  function NatToString(n: nat): (r: string)
    ensures |r| > 0 && IsDigits(r)
  {
    if n < 10 then [DigitChar(n)] else NatToString(n / 10) + [DigitChar(n % 10)]
  }

  /** `str(i)` on any integer: a minus sign before a negative number. */
  function IntToString(i: int): string {
    if i < 0 then "-" + NatToString(-i) else NatToString(i)
  }

  /** `int(s)` on a run of decimal digits. */
  function DigitsValue(s: string): nat
    requires IsDigits(s)
  {
    if s == [] then 0 else 10 * DigitsValue(s[..|s| - 1]) + DigitValue(s[|s| - 1])
  }

  /** construct_api_link: the URI of record `id` of `table`. */
  function ConstructApiLink(table: string, id: int): string {
    ApiPrefix + Lower(table) + "/" + IntToString(id) + "/"
  }

  /** The two groups parse_uri returns: the table and, when present, the id digits. */
  datatype Parsed = Parsed(table: string, id: Option<string>)

  /** parse_uri: `None` is the failed assertion "Bad URI". The result is always
      read off a prefix of `uri`: the table is a non-empty word between the API
      prefix and a slash, followed either by the end of the text (Python's `$`
      also matches before one final newline) or by a maximal run of digits. */
  function ParseUri(uri: string): (r: Option<Parsed>) {
    if !(ApiPrefix <= uri) then None
    else
      var rest := uri[|ApiPrefix|..];
      var n := WordRun(rest);
      if n == 0 || n == |rest| || rest[n] != '/' then None
      else
        var table := rest[..n];
        var after := rest[n + 1..];
        if after == "" || after == "\n" then Some(Parsed(table, None))
        else if IsDigit(after[0]) then Some(Parsed(table, Some(after[..DigitRun(after)])))
        else None
  }

  /** Soundness of parse_uri: the result is always read off a prefix of `uri`:
      the table is a non-empty word between the API prefix and a slash,
      followed either by the end of the text (Python's `$` also matches before
      one final newline) or by a maximal run of digits. */
  lemma ParseUriSound(uri: string)
    ensures var r := ParseUri(uri);
      r.Some? ==>
      var head := ApiPrefix + r.value.table + "/";
      && |r.value.table| > 0 && IsWord(r.value.table)
      && head <= uri
      && match r.value.id
         case None => uri[|head|..] == "" || uri[|head|..] == "\n"
         case Some(d) =>
           && |d| > 0 && IsDigits(d) && head + d <= uri
           && (|uri| == |head + d| || !IsDigit(uri[|head + d|]))
  {
    if ApiPrefix <= uri {
      var rest := uri[|ApiPrefix|..];
      var n := WordRun(rest);
      if 0 < n < |rest| && rest[n] == '/' {
        var head := ApiPrefix + rest[..n] + "/";
        var after := rest[n + 1..];
        assert uri == head + after;
        if after == "" || after == "\n" {
          assert ParseUri(uri) == Some(Parsed(rest[..n], None));
          assert uri[|head|..] == after;
        } else if IsDigit(after[0]) {
          var k := DigitRun(after);
          assert ParseUri(uri) == Some(Parsed(rest[..n], Some(after[..k])));
          SplitAfterHead(uri, head, after, k);
        }
      }
    }
  }

  /** Cutting `uri == head + after` after `k` characters of `after`. */
  lemma SplitAfterHead(uri: string, head: string, after: string, k: nat)
    requires uri == head + after && k <= |after|
    ensures head + after[..k] <= uri
    ensures |uri| == |head + after[..k]| || uri[|head + after[..k]|] == after[k]
  {
    assert uri == (head + after[..k]) + after[k..];
  }

  /** extract_id_from_uri: the id of a resource URI, as an integer. A URI
      without an id fails as `int(None)` does. */
  function ExtractIdFromUri(uri: string): (r: Result<int>)
    ensures r.Ok? ==> r.value >= 0
  {
    match ParseUri(uri)
    case None => Err(BadUri)
    case Some(Parsed(_, None)) => Err(NoId)
    case Some(Parsed(_, Some(d))) => Ok(DigitsValue(d))
  }

  // ---------------------------------------------------------------------------
  // Lemmas

  lemma LowerKeepsWord(t: string)
    requires IsWord(t)
    ensures IsWord(Lower(t))
  {
    forall i | 0 <= i < |t| ensures IsWordChar(Lower(t)[i]) {
      assert IsWordChar(t[i]);
    }
  }

  /** Text without capital letters is its own lower case. */
  lemma LowerOfLowercase(t: string)
    requires forall i | 0 <= i < |t| :: !('A' <= t[i] <= 'Z')
    ensures Lower(t) == t
  {
  }

  lemma LowerIdempotent(t: string)
    ensures Lower(Lower(t)) == Lower(t)
  {
  }

  /** `\w+` stops exactly where the word `w` ends when a non-word character follows. */
  lemma {:induction false} WordRunOf(w: string, rest: string)
    requires IsWord(w)
    requires rest == [] || !IsWordChar(rest[0])
    ensures WordRun(w + rest) == |w|
  {
    if w != [] {
      assert (w + rest)[1..] == w[1..] + rest;
      assert IsWordChar(w[0]);
      WordRunOf(w[1..], rest);
    } else {
      assert w + rest == rest;
    }
  }

  /** `\d+` stops exactly where the digits `d` end when a non-digit follows. */
  lemma {:induction false} DigitRunOf(d: string, rest: string)
    requires IsDigits(d)
    requires rest == [] || !IsDigit(rest[0])
    ensures DigitRun(d + rest) == |d|
  {
    if d != [] {
      assert (d + rest)[1..] == d[1..] + rest;
      assert IsDigit(d[0]);
      DigitRunOf(d[1..], rest);
    } else {
      assert d + rest == rest;
    }
  }

  /** `int(str(n)) == n`. */
  lemma {:induction false} DigitsRoundTrip(n: nat)
    ensures DigitsValue(NatToString(n)) == n
  {
    if n >= 10 {
      var s := NatToString(n);
      assert s[..|s| - 1] == NatToString(n / 10);
      DigitsRoundTrip(n / 10);
    }
  }

  /** Once the API prefix, a word and a slash have been read, the rest of
      the text alone decides the parse. */
  lemma ParseUriAfterTable(t: string, after: string)
    requires |t| > 0 && IsWord(t)
    ensures ParseUri(ApiPrefix + t + "/" + after) ==
      if after == "" || after == "\n" then Some(Parsed(t, None))
      else if IsDigit(after[0]) then Some(Parsed(t, Some(after[..DigitRun(after)])))
      else None
  {
    var uri := ApiPrefix + t + "/" + after;
    assert uri[|ApiPrefix|..] == t + ("/" + after);
    WordRunOf(t, "/" + after);
    assert uri[|ApiPrefix|..][|t| + 1..] == after;
  }

  /** Completeness for collection URIs: the regex accepts `/api/specify/<t>/`
      (optionally with one final newline) and captures `t` and no id. */
  lemma ParseUriAcceptsCollection(t: string, tail: string)
    requires |t| > 0 && IsWord(t)
    requires tail == "" || tail == "\n"
    ensures ParseUri(ApiPrefix + t + "/" + tail) == Some(Parsed(t, None))
  {
    ParseUriAfterTable(t, tail);
  }

  /** Completeness for resource URIs: the regex accepts `/api/specify/<t>/<d>`
      followed by anything that does not start with a digit, and captures
      `t` and the digits `d`. */
  lemma ParseUriAcceptsId(t: string, d: string, tail: string)
    requires |t| > 0 && IsWord(t)
    requires |d| > 0 && IsDigits(d)
    requires tail == [] || !IsDigit(tail[0])
    ensures ParseUri(ApiPrefix + t + "/" + d + tail) == Some(Parsed(t, Some(d)))
  {
    assert ApiPrefix + t + "/" + d + tail == ApiPrefix + t + "/" + (d + tail);
    ParseUriAfterTable(t, d + tail);
    assert IsDigit(d[0]);
    DigitRunOf(d, tail);
    assert (d + tail)[..|d|] == d;
  }

  /** Round trip: parsing a constructed link gives back the lower-cased table
      and the decimal text of the id. */
  lemma ParseConstructedLink(t: string, i: int)
    requires |t| > 0 && IsWord(t) && i >= 0
    ensures ParseUri(ConstructApiLink(t, i)) == Some(Parsed(Lower(t), Some(IntToString(i))))
  {
    LowerKeepsWord(t);
    assert ConstructApiLink(t, i) == ApiPrefix + Lower(t) + "/" + NatToString(i) + "/";
    ParseUriAcceptsId(Lower(t), NatToString(i), "/");
  }

  /** Round trip: the id extracted from a constructed link is the id it was built from. */
  lemma ExtractConstructedId(t: string, i: int)
    requires |t| > 0 && IsWord(t) && i >= 0
    ensures ExtractIdFromUri(ConstructApiLink(t, i)) == Ok(i)
  {
    ParseConstructedLink(t, i);
    DigitsRoundTrip(i);
  }

  /** Anchored only at the start: text after the digit run does not change the parse. */
  lemma ParseIgnoresTrailingText(t: string, i: int, suffix: string)
    requires |t| > 0 && IsWord(t) && i >= 0
    ensures ParseUri(ConstructApiLink(t, i) + suffix) == ParseUri(ConstructApiLink(t, i))
  {
    LowerKeepsWord(t);
    ParseConstructedLink(t, i);
    assert ConstructApiLink(t, i) + suffix == ApiPrefix + Lower(t) + "/" + NatToString(i) + ("/" + suffix);
    ParseUriAcceptsId(Lower(t), NatToString(i), "/" + suffix);
  }

  /** The regex refuses a word and a slash followed by anything other than the
      end of the text, one final newline, or a digit. */
  lemma ParseUriRejectsAfterSlash(w: string, after: string)
    requires IsWord(w)
    requires after != "" && after != "\n" && !IsDigit(after[0])
    ensures ParseUri(ApiPrefix + w + "/" + after) == None
  {
    if w == [] {
      assert (ApiPrefix + w + "/" + after)[|ApiPrefix|..][0] == '/';
    } else {
      ParseUriAfterTable(w, after);
    }
  }

  /** A negative id is written with a minus sign, which the regex refuses. */
  lemma NegativeIdRejected(t: string, i: int)
    requires IsWord(t) && i < 0
    ensures ParseUri(ConstructApiLink(t, i)) == None
    ensures ExtractIdFromUri(ConstructApiLink(t, i)) == Err(BadUri)
  {
    LowerKeepsWord(t);
    var after := "-" + NatToString(-i) + "/";
    assert ConstructApiLink(t, i) == ApiPrefix + Lower(t) + "/" + after;
    ParseUriRejectsAfterSlash(Lower(t), after);
  }

  /** An empty table name leaves `\w+` nothing to match. */
  lemma EmptyTableRejected(i: int)
    ensures ParseUri(ConstructApiLink("", i)) == None
  {
    var uri := ConstructApiLink("", i);
    assert uri[|ApiPrefix|..][0] == '/';
  }

  /** A collection URI parses without an id, and extracting an id from it fails. */
  lemma CollectionUriHasNoId(t: string)
    requires |t| > 0 && IsWord(t)
    ensures ParseUri(ApiPrefix + Lower(t) + "/") == Some(Parsed(Lower(t), None))
    ensures ExtractIdFromUri(ApiPrefix + Lower(t) + "/") == Err(NoId)
  {
    LowerKeepsWord(t);
    assert ApiPrefix + Lower(t) + "/" == ApiPrefix + Lower(t) + "/" + "";
    ParseUriAcceptsCollection(Lower(t), "");
  }
}
