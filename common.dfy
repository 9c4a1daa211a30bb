/** Shared value types and the JavaScript string / array operations the bot
    relies on, written out so that their edge cases are explicit. */
module Common {

  datatype Option<T> = None | Some(value: T)

  // ---------------------------------------------------------------------
  // Characters and case folding (ASCII letters only)
  // ---------------------------------------------------------------------

  predicate IsUpper(c: char) { 'A' <= c <= 'Z' }

  predicate IsDigit(c: char) { '0' <= c <= '9' }

  predicate IsHexDigit(c: char) { IsDigit(c) || 'a' <= c <= 'f' || 'A' <= c <= 'F' }

  /** The whitespace removed by String.prototype.trim (ASCII part). */
  predicate IsSpace(c: char)
  {
    c == ' ' || c == '\t' || c == '\n' || c == '\r' || c == '\U{000B}' || c == '\U{000C}' || c == '\U{00A0}'
  }

  /** The ASCII lower-case mapping: 'A' to 'Z' move by 32, the rest stay. */
  function LowerChar(c: char): (r: char)
    ensures !IsUpper(r)
    ensures IsUpper(c) ==> r as int == c as int + 32
    ensures !IsUpper(c) ==> r == c
  {
    if IsUpper(c) then (c as int + 32) as char else c
  }

  predicate IsLowerCase(s: string) { forall i :: 0 <= i < |s| ==> !IsUpper(s[i]) }

  /** String.prototype.toLowerCase on the letters A to Z. Every other character,
      including the non-ASCII capitals that JavaScript also folds, is kept. */
  function ToLower(s: string): (r: string)
    ensures |r| == |s| && IsLowerCase(r)
    ensures forall i :: 0 <= i < |s| ==> r[i] == LowerChar(s[i])
  {
    seq(|s|, i requires 0 <= i < |s| => LowerChar(s[i]))
  }

  lemma ToLowerIdempotent(s: string)
    ensures ToLower(ToLower(s)) == ToLower(s)
  {
  }

  lemma ToLowerOfLower(s: string)
    requires IsLowerCase(s)
    ensures ToLower(s) == s
  {
  }

  lemma ToLowerAppend(a: string, b: string)
    ensures ToLower(a + b) == ToLower(a) + ToLower(b)
  {
  }

  // ---------------------------------------------------------------------
  // trim
  // ---------------------------------------------------------------------

  function TrimStart(s: string): (r: string)
    ensures |r| <= |s| && r == s[|s| - |r|..]
    ensures r != [] ==> !IsSpace(r[0])
    ensures forall i :: 0 <= i < |s| - |r| ==> IsSpace(s[i])
  {
    if s != [] && IsSpace(s[0]) then TrimStart(s[1..]) else s
  }

  function TrimEnd(s: string): (r: string)
    ensures |r| <= |s| && r == s[..|r|]
    ensures r != [] ==> !IsSpace(r[|r| - 1])
    ensures forall i :: |r| <= i < |s| ==> IsSpace(s[i])
  {
    if s != [] && IsSpace(s[|s| - 1]) then TrimEnd(s[..|s| - 1]) else s
  }

  /** String.prototype.trim: the longest middle slice with no surrounding whitespace. */
  function Trim(s: string): (r: string)
    ensures Contains(s, r)
    ensures r != [] ==> !IsSpace(r[0]) && !IsSpace(r[|r| - 1])
  {
    var t := TrimStart(s);
    var r := TrimEnd(t);
    assert OccursAt(s, r, |s| - |t|);
    r
  }

  /** Every character of `s` before `i` and from `j` on is white space. */
  predicate SpaceOutside(s: string, i: int, j: int)
  {
    (forall k :: 0 <= k < i && k < |s| ==> IsSpace(s[k])) && forall k :: 0 <= j <= k < |s| ==> IsSpace(s[k])
  }

  /** What `trim` removes on either side is white space only. */
  lemma TrimRemovesOnlySpace(s: string)
    ensures exists i :: OccursAt(s, Trim(s), i) && SpaceOutside(s, i, i + |Trim(s)|)
  {
    var t := TrimStart(s);
    var i := |s| - |t|;
    TrimEndSides(s, i, t);
    assert OccursAt(s, Trim(s), i);
  }

  /** Trimming the end of a suffix that follows white space leaves white space
      on both sides of the result. */
  lemma TrimEndSides(s: string, i: nat, t: string)
    requires i <= |s| && t == s[i..]
    requires forall k :: 0 <= k < i ==> IsSpace(s[k])
    ensures SpaceOutside(s, i, i + |TrimEnd(t)|)
  {
    var r := TrimEnd(t);
    forall k | 0 <= i + |r| <= k < |s| ensures IsSpace(s[k]) {
      assert IsSpace(t[k - i]);
      assert t[k - i] == s[k];
    }
  }

  lemma TrimOfAllSpace(s: string)
    requires forall i :: 0 <= i < |s| ==> IsSpace(s[i])
    ensures Trim(s) == []
  {
  }

  /** A white-space character in front is skipped. */
  lemma TrimStartLeadingSpace(c: char, t: string)
    requires IsSpace(c)
    ensures TrimStart([c] + t) == TrimStart(t)
  {
    assert ([c] + t)[1..] == t;
  }

  lemma TrimKeepsClean(s: string)
    requires s == [] || (!IsSpace(s[0]) && !IsSpace(s[|s| - 1]))
    ensures Trim(s) == s
  {
  }

  /** One white-space character in front of clean text is trimmed away. */
  lemma TrimOfLeadingSpace(c: char, t: string)
    requires IsSpace(c) && t != [] && !IsSpace(t[0]) && !IsSpace(t[|t| - 1])
    ensures Trim([c] + t) == t
  {
    TrimStartLeadingSpace(c, t);
    TrimKeepsClean(t);
  }

  // ---------------------------------------------------------------------
  // Substrings
  // ---------------------------------------------------------------------

  predicate StartsWith(s: string, p: string) { |p| <= |s| && s[..|p|] == p }

  predicate OccursAt(s: string, t: string, i: int)
  {
    0 <= i && i + |t| <= |s| && s[i..i + |t|] == t
  }

  /** String.prototype.includes. */
  predicate Contains(s: string, t: string)
  {
    exists i | 0 <= i <= |s| - |t| :: OccursAt(s, t, i)
  }

  /** The first index at which `t` occurs in `s` (String.prototype.indexOf). */
  function FindFrom(s: string, t: string, from: nat): (r: Option<nat>)
    requires from <= |s| + 1
    decreases |s| + 1 - from
    ensures r.Some? ==> from <= r.value && OccursAt(s, t, r.value as int)
    ensures r.Some? ==> forall j :: from <= j < r.value ==> !OccursAt(s, t, j)
    ensures r.None? ==> forall j :: from <= j ==> !OccursAt(s, t, j)
  {
    if from + |t| > |s| then None
    else if s[from..from + |t|] == t then Some(from)
    else FindFrom(s, t, from + 1)
  }

  function Find(s: string, t: string): (r: Option<nat>)
    ensures r.Some? ==> OccursAt(s, t, r.value) && forall j :: 0 <= j < r.value ==> !OccursAt(s, t, j)
    ensures r.None? <==> !Contains(s, t)
  {
    FindFrom(s, t, 0)
  }

  /** The replacement patterns of String.prototype.replace when the pattern is a
      string, so there are no capture groups (GetSubstitution, section 22.1.3.19.1
      of ECMAScript 2023): "$$" is one "$", "$&" the matched text, "$`" the text
      before the match and "$'" the text after it. Any other "$", a trailing one
      included, stays as it is. */
  function Substitution(rep: string, matched: string, before: string, after: string): (r: string)
    decreases |rep|
  {
    if rep == [] then []
    else if rep[0] == '$' && |rep| >= 2 && rep[1] == '$' then "$" + Substitution(rep[2..], matched, before, after)
    else if rep[0] == '$' && |rep| >= 2 && rep[1] == '&' then matched + Substitution(rep[2..], matched, before, after)
    else if rep[0] == '$' && |rep| >= 2 && rep[1] == '`' then before + Substitution(rep[2..], matched, before, after)
    else if rep[0] == '$' && |rep| >= 2 && rep[1] == '\'' then after + Substitution(rep[2..], matched, before, after)
    else [rep[0]] + Substitution(rep[1..], matched, before, after)
  }

  /** A replacement without "$" is inserted as it is. */
  lemma {:induction false} SubstitutionOfPlain(rep: string, matched: string, before: string, after: string)
    requires '$' !in rep
    ensures Substitution(rep, matched, before, after) == rep
  {
    if rep != [] {
      SubstitutionOfPlain(rep[1..], matched, before, after);
      assert rep == [rep[0]] + rep[1..];
    }
  }

  /** Decimal digits hold no "$". */
  lemma SubstitutionOfDigits(rep: string, matched: string, before: string, after: string)
    requires IsAllDigits(rep)
    ensures Substitution(rep, matched, before, after) == rep
  {
    forall k | 0 <= k < |rep| ensures rep[k] != '$' {
      assert IsDigit(rep[k]);
    }
    SubstitutionOfPlain(rep, matched, before, after);
  }

  /** String.prototype.replace with a string pattern: only the first
      occurrence is replaced, by the replacement with its "$" patterns expanded. */
  function ReplaceFirst(s: string, pat: string, rep: string): (r: string)
  {
    match Find(s, pat)
    case None => s
    case Some(i) => s[..i] + Substitution(rep, pat, s[..i], s[i + |pat|..]) + s[i + |pat|..]
  }

  lemma ReplaceFirstAbsent(s: string, pat: string, rep: string)
    requires !Contains(s, pat)
    ensures ReplaceFirst(s, pat, rep) == s
  {
  }

  /** Replacing at the first occurrence keeps everything before it, inserts the
      expanded replacement and keeps the rest of the text verbatim (later
      occurrences included). */
  lemma ReplaceFirstShape(s: string, pat: string, rep: string)
    requires Contains(s, pat)
    ensures exists i ::
              OccursAt(s, pat, i) && (forall j :: 0 <= j < i ==> !OccursAt(s, pat, j)) &&
              ReplaceFirst(s, pat, rep) == s[..i] + Substitution(rep, pat, s[..i], s[i + |pat|..]) + s[i + |pat|..]
  {
    var i := Find(s, pat).value;
    ReplaceFirstAt(s, pat, rep, i);
  }

  /** Knowing where the first occurrence is determines the replacement. */
  lemma ReplaceFirstAt(s: string, pat: string, rep: string, i: nat)
    requires OccursAt(s, pat, i) && forall j :: 0 <= j < i ==> !OccursAt(s, pat, j)
    ensures ReplaceFirst(s, pat, rep) == s[..i] + Substitution(rep, pat, s[..i], s[i + |pat|..]) + s[i + |pat|..]
  {
    assert Find(s, pat).Some?;
  }

  /** A pattern cannot start inside a prefix free of its first character. */
  lemma NoOccurrenceInPrefix(pre: string, rest: string, pat: string)
    requires |pat| > 0 && pat[0] !in pre
    ensures forall j :: 0 <= j < |pre| ==> !OccursAt(pre + rest, pat, j)
  {
    forall j | 0 <= j < |pre| ensures !OccursAt(pre + rest, pat, j) {
      assert (pre + rest)[j] == pre[j];
    }
  }

  /** A text that is a prefix, the pattern and the rest, with no earlier
      occurrence, has that occurrence replaced. */
  lemma ReplaceFirstBetween(pre: string, pat: string, post: string, rep: string)
    requires forall j :: 0 <= j < |pre| ==> !OccursAt(pre + pat + post, pat, j)
    ensures ReplaceFirst(pre + pat + post, pat, rep) == pre + Substitution(rep, pat, pre, post) + post
  {
    var s := pre + pat + post;
    assert s[|pre|..|pre| + |pat|] == pat;
    ReplaceFirstAt(s, pat, rep, |pre|);
    assert s[..|pre|] == pre;
    assert s[|pre| + |pat|..] == post;
  }

  /** Replacing the first occurrence of a prefix by nothing strips that prefix. */
  lemma ReplaceFirstPrefix(p: string, x: string)
    ensures ReplaceFirst(p + x, p, "") == x
  {
    var s := p + x;
    assert OccursAt(s, p, 0);
    ReplaceFirstAt(s, p, "", 0);
    assert s[|p|..] == x;
  }

  // ---------------------------------------------------------------------
  // Splitting and joining on one separator character
  // ---------------------------------------------------------------------

  /** String.prototype.split with a one-character separator: every piece is
      kept, empty ones included ("a||b" gives three pieces, "" gives [""]). */
  function Split(s: string, sep: char): (r: seq<string>)
    ensures |r| >= 1
    ensures forall k :: 0 <= k < |r| ==> sep !in r[k]
  {
    if sep !in s then [s]
    else
      var i := IndexOfChar(s, sep);
      [s[..i]] + Split(s[i + 1..], sep)
  }

  function IndexOfChar(s: string, c: char): (i: nat)
    requires c in s
    ensures i < |s| && s[i] == c && c !in s[..i]
  {
    if s[0] == c then 0 else 1 + IndexOfChar(s[1..], c)
  }

  function Join(parts: seq<string>, sep: char): string
  {
    if |parts| == 0 then []
    else if |parts| == 1 then parts[0]
    else parts[0] + [sep] + Join(parts[1..], sep)
  }

  /** Joining a first piece onto at least one more. */
  lemma JoinCons(first: string, rest: seq<string>, sep: char)
    requires |rest| >= 1
    ensures Join([first] + rest, sep) == first + [sep] + Join(rest, sep)
  {
    assert ([first] + rest)[1..] == rest;
  }

  /** A prefix grows by the next element. */
  lemma PrefixGrow<T>(s: seq<T>, i: nat, x: T)
    requires i < |s| && s[i] == x
    ensures s[..i] + [x] == s[..i + 1]
  {
  }

  lemma CutAt<T>(s: seq<T>, i: nat)
    requires i < |s|
    ensures s == s[..i] + [s[i]] + s[i + 1..]
  {
  }

  /** Splitting loses nothing: joining the pieces back gives the input. */
  lemma {:induction false} JoinSplit(s: string, sep: char)
    ensures Join(Split(s, sep), sep) == s
    decreases |s|
  {
    if sep in s {
      var i := IndexOfChar(s, sep);
      var rest := s[i + 1..];
      JoinSplit(rest, sep);
      JoinCons(s[..i], Split(rest, sep), sep);
      CutAt(s, i);
    }
  }

  /** The first piece split off on `sep` (the first element of `split`). */
  function FirstPiece(s: string, sep: char): (r: string)
    ensures StartsWith(s, r) && sep !in r
    ensures |r| < |s| ==> s[|r|] == sep
  {
    if sep in s then s[..IndexOfChar(s, sep)] else s
  }

  lemma FirstPieceIsSplitHead(s: string, sep: char)
    ensures Split(s, sep)[0] == FirstPiece(s, sep)
  {
  }

  /** The first separator is where IndexOfChar finds it. */
  lemma IndexOfCharAt(s: string, c: char, i: nat)
    requires i < |s| && s[i] == c && c !in s[..i]
    ensures IndexOfChar(s, c) == i
  {
  }

  /** A piece without the separator, the separator, and the rest split as that
      piece followed by the pieces of the rest. */
  lemma SplitCons(first: string, sep: char, rest: string)
    requires sep !in first
    ensures Split(first + [sep] + rest, sep) == [first] + Split(rest, sep)
  {
    var s := first + [sep] + rest;
    assert s[..|first|] == first && s[|first|] == sep;
    assert s[|first| + 1..] == rest;
    IndexOfCharAt(s, sep, |first|);
  }

  /** Joining pieces that do not contain the separator and splitting again gives
      the pieces back. */
  lemma {:induction false} SplitJoin(parts: seq<string>, sep: char)
    requires |parts| >= 1 && forall k :: 0 <= k < |parts| ==> sep !in parts[k]
    ensures Split(Join(parts, sep), sep) == parts
    decreases |parts|
  {
    if |parts| > 1 {
      var rest := parts[1..];
      assert Join(parts, sep) == parts[0] + [sep] + Join(rest, sep);
      SplitCons(parts[0], sep, Join(rest, sep));
      SplitJoin(rest, sep);
      assert parts == [parts[0]] + rest;
    }
  }

  predicate NonEmpty(s: string) { s != "" }

  /** The `split("|").map(trim).filter(Boolean)` idiom of the poll commands. */
  function OptionList(s: string): (r: seq<string>)
    ensures forall k :: 0 <= k < |r| ==> r[k] != "" && '|' !in r[k]
    ensures forall k :: 0 <= k < |r| ==> !IsSpace(r[k][0]) && !IsSpace(r[k][|r[k]| - 1])
  {
    var pieces := Split(s, '|');
    var trimmed := seq(|pieces|, k requires 0 <= k < |pieces| => Trim(pieces[k]));
    forall k | 0 <= k < |pieces| ensures '|' !in trimmed[k] {
      var i :| 0 <= i <= |pieces[k]| - |trimmed[k]| && OccursAt(pieces[k], trimmed[k], i);
      forall j | 0 <= j < |trimmed[k]| ensures trimmed[k][j] != '|' {
        assert trimmed[k][j] == pieces[k][i + j];
      }
    }
    Filter(trimmed, NonEmpty)
  }

  /** Options that are non-empty, trimmed and free of "|" survive being joined with
      "|" and parsed again. */
  lemma OptionListRoundTrip(options: seq<string>)
    requires |options| >= 1
    requires forall k :: 0 <= k < |options| ==>
               options[k] != "" && '|' !in options[k] && !IsSpace(options[k][0]) && !IsSpace(options[k][|options[k]| - 1])
    ensures OptionList(Join(options, '|')) == options
  {
    SplitJoin(options, '|');
    var trimmed := seq(|options|, k requires 0 <= k < |options| => Trim(options[k]));
    forall k | 0 <= k < |options| ensures trimmed[k] == options[k] {
      TrimKeepsClean(options[k]);
    }
    assert trimmed == options;
    FilterAll(options, NonEmpty);
  }

  /** What the `ms` duration parser gave for a time option: an exception, no
      number (undefined or NaN), or a number of milliseconds. The parser itself is
      a library and not part of this model. */
  datatype Parsed = ParseError | NoNumber | Millis(ms: int)

  /** How a parsed time compares with an allowed window of milliseconds. */
  datatype DelayVerdict = InWindow | Unparsed | OutsideWindow

  /** The time check shared by reminders and scheduled messages: a parse error,
      then `!ms || ms < lo || ms > hi`. */
  function DelayCheck(parsed: Parsed, lo: int, hi: int): (v: DelayVerdict)
    ensures v == InWindow <==> parsed.Millis? && lo <= parsed.ms <= hi
    ensures v == Unparsed <==> parsed == ParseError
  {
    match parsed
    case ParseError => Unparsed
    case NoNumber => OutsideWindow
    case Millis(d) => if d < lo || d > hi then OutsideWindow else InWindow
  }

  // ---------------------------------------------------------------------
  // Validation predicates
  // ---------------------------------------------------------------------

  /** The regular expression /^\d+$/ . */
  predicate IsAllDigits(s: string) { |s| > 0 && forall i :: 0 <= i < |s| ==> IsDigit(s[i]) }

  /** The regular expression /^#[0-9A-F]{6}$/i . */
  predicate IsHexColour(s: string)
  {
    |s| == 7 && s[0] == '#' && forall i :: 1 <= i < 7 ==> IsHexDigit(s[i])
  }

  lemma HexColourIgnoresCase(s: string)
    requires IsHexColour(s)
    ensures IsHexColour(ToLower(s))
  {
  }

  // ---------------------------------------------------------------------
  // UTF-16 lengths
  // ---------------------------------------------------------------------

  /** The UTF-16 code units a character takes: two above the Basic
      Multilingual Plane, one otherwise. */
  function Units(c: char): (n: nat)
    ensures n == 1 || n == 2
  {
    if c as int >= 0x1_0000 then 2 else 1
  }

  /** String.prototype.length: the number of UTF-16 code units. */
  function JsLength(s: string): (n: nat)
    ensures |s| <= n <= 2 * |s|
    ensures n == 0 <==> s == []
  {
    if s == [] then 0 else Units(s[0]) + JsLength(s[1..])
  }

  lemma {:induction false} JsLengthAppend(a: string, b: string)
    ensures JsLength(a + b) == JsLength(a) + JsLength(b)
  {
    if a != [] {
      assert (a + b)[1..] == a[1..] + b;
      JsLengthAppend(a[1..], b);
    } else {
      assert a + b == b;
    }
  }

  /** Text below U+10000 has one code unit per character. */
  lemma {:induction false} JsLengthOfBmp(s: string)
    requires forall i :: 0 <= i < |s| ==> s[i] as int < 0x1_0000
    ensures JsLength(s) == |s|
  {
    if s != [] {
      JsLengthOfBmp(s[1..]);
    }
  }

  /** The longest prefix of `s` that fits in `n` code units: `s.substring(0, n)`
      where the cut does not fall inside a surrogate pair. */
  function JsPrefix(s: string, n: nat): (p: string)
    ensures |p| <= |s| && p == s[..|p|]
    ensures JsLength(p) <= n
    ensures |p| < |s| ==> JsLength(p) + Units(s[|p|]) > n
  {
    if s == [] || Units(s[0]) > n then []
    else
      var rest := JsPrefix(s[1..], n - Units(s[0]));
      assert ([s[0]] + rest)[1..] == rest;
      [s[0]] + rest
  }

  /** A text that fits is its own prefix. */
  lemma {:induction false} JsPrefixOfShort(s: string, n: nat)
    requires JsLength(s) <= n
    ensures JsPrefix(s, n) == s
  {
    if s != [] {
      JsPrefixOfShort(s[1..], n - Units(s[0]));
    }
  }

  /** The display rule "longer than 100 code units: the first 97 and '...'". */
  function Truncate100(s: string): (r: string)
    ensures JsLength(r) <= 100
    ensures JsLength(s) <= 100 ==> r == s
    ensures JsLength(s) > 100 ==> 99 <= JsLength(r) && r == JsPrefix(s, 97) + "..."
  {
    if JsLength(s) > 100 then
      var p := JsPrefix(s, 97);
      JsLengthAppend(p, "...");
      assert JsLength("...") == 3;
      assert s[..|s|] == s;
      assert |p| < |s|;
      p + "..."
    else s
  }

  /** For text below U+10000 this is the plain 97-character cut. */
  lemma Truncate100OfBmp(s: string)
    requires forall i :: 0 <= i < |s| ==> s[i] as int < 0x1_0000
    requires |s| > 100
    ensures Truncate100(s) == s[..97] + "..."
  {
    JsLengthOfBmp(s);
    var p := JsPrefix(s, 97);
    JsLengthOfBmp(p);
    assert |p| < |s|;
    assert Units(s[|p|]) == 1;
  }

  // ---------------------------------------------------------------------
  // Cooldowns
  // ---------------------------------------------------------------------

  /** `last && now - last < cooldown`: an unset timestamp, and the timestamp 0,
      never block. */
  predicate OnCooldown(last: Option<int>, now: int, cooldown: int)
  {
    last.Some? && last.value != 0 && now - last.value < cooldown
  }

  // ---------------------------------------------------------------------
  // Number formatting
  // ---------------------------------------------------------------------

  function DigitChar(d: nat): (c: char)
    requires d < 10
    ensures IsDigit(c)
  {
    ('0' as int + d) as char
  }

  /** Decimal rendering of a natural number, as String(n). */
  function NatToString(n: nat): (r: string)
    ensures IsAllDigits(r)
    ensures n < 10 ==> |r| == 1
    decreases n
  {
    if n < 10 then [DigitChar(n)] else NatToString(n / 10) + [DigitChar(n % 10)]
  }

  function DigitValue(c: char): nat
    requires IsDigit(c)
  {
    c as int - '0' as int
  }

  function DigitsValue(s: string): nat
    requires forall i :: 0 <= i < |s| ==> IsDigit(s[i])
  {
    if s == [] then 0 else DigitsValue(s[..|s| - 1]) * 10 + DigitValue(s[|s| - 1])
  }

  /** Reading the rendering back gives the number: NatToString is injective. */
  lemma {:induction false} NatToStringRoundTrip(n: nat)
    ensures DigitsValue(NatToString(n)) == n
    decreases n
  {
    if n >= 10 {
      NatToStringRoundTrip(n / 10);
      var s := NatToString(n / 10) + [DigitChar(n % 10)];
      assert s[..|s| - 1] == NatToString(n / 10);
    }
  }

  function IntToString(n: int): string
  {
    if n < 0 then "-" + NatToString(-n) else NatToString(n)
  }

  // ---------------------------------------------------------------------
  // Sequences used as JavaScript arrays
  // ---------------------------------------------------------------------

  predicate NoDups<T(==)>(s: seq<T>)
  {
    forall i, j :: 0 <= i < j < |s| ==> s[i] != s[j]
  }

  /** Array.prototype.indexOf: the first position of x, or -1. */
  function IndexOf<T(==)>(s: seq<T>, x: T): (r: int)
    ensures -1 <= r < |s|
    ensures r == -1 <==> x !in s
    ensures r >= 0 ==> s[r] == x && x !in s[..r]
  {
    if |s| == 0 then -1
    else if s[0] == x then 0
    else
      var k := IndexOf(s[1..], x);
      assert s[1..][..if k < 0 then 0 else k] == s[1..1 + if k < 0 then 0 else k];
      if k == -1 then -1 else k + 1
  }

  /** Array.prototype.splice(i, 1). */
  function RemoveAt<T>(s: seq<T>, i: nat): (r: seq<T>)
    requires i < |s|
    ensures |r| == |s| - 1
    ensures forall k :: 0 <= k < i ==> r[k] == s[k]
    ensures forall k :: i <= k < |r| ==> r[k] == s[k + 1]
  {
    s[..i] + s[i + 1..]
  }

  lemma RemoveAtMultiset<T>(s: seq<T>, i: nat)
    requires i < |s|
    ensures multiset(RemoveAt(s, i)) == multiset(s) - multiset{s[i]}
  {
    assert s == s[..i] + [s[i]] + s[i + 1..];
  }

  lemma RemoveAtNoDups<T>(s: seq<T>, i: nat)
    requires i < |s| && NoDups(s)
    ensures NoDups(RemoveAt(s, i)) && s[i] !in RemoveAt(s, i)
  {
  }

  /** The "push if absent" idiom used for every id list. */
  function AppendIfAbsent<T(==)>(s: seq<T>, x: T): (r: seq<T>)
    ensures x in r
    ensures x in s ==> r == s
    ensures x !in s ==> r == s + [x]
  {
    if x in s then s else s + [x]
  }

  lemma AppendIfAbsentNoDups<T>(s: seq<T>, x: T)
    requires NoDups(s)
    ensures NoDups(AppendIfAbsent(s, x))
  {
  }

  /** indexOf followed by splice(index, 1) when found. */
  function RemoveFirst<T(==)>(s: seq<T>, x: T): (r: seq<T>)
    ensures x !in s ==> r == s
    ensures x in s ==> |r| == |s| - 1
  {
    if x in s then RemoveAt(s, IndexOf(s, x)) else s
  }

  lemma RemoveFirstMultiset<T>(s: seq<T>, x: T)
    ensures multiset(RemoveFirst(s, x)) == multiset(s) - multiset{x}
  {
    if x in s { RemoveAtMultiset(s, IndexOf(s, x)); }
  }

  /** On a duplicate-free list, removing one occurrence removes x entirely and
      keeps the list duplicate-free. */
  lemma RemoveFirstNoDups<T>(s: seq<T>, x: T)
    requires NoDups(s)
    ensures NoDups(RemoveFirst(s, x)) && x !in RemoveFirst(s, x)
    ensures forall y :: y != x ==> (y in RemoveFirst(s, x) <==> y in s)
  {
    if x in s {
      var i := IndexOf(s, x);
      RemoveAtNoDups(s, i);
      RemoveAtMultiset(s, i);
      forall y | y != x ensures y in RemoveFirst(s, x) <==> y in s {
        assert y in multiset(RemoveFirst(s, x)) <==> y in multiset(s);
      }
    }
  }

  /** Array.prototype.findIndex: the first position whose element satisfies p. */
  function FindIndex<T>(s: seq<T>, p: T -> bool): (r: int)
    ensures -1 <= r < |s|
    ensures r >= 0 ==> p(s[r])
    ensures forall k :: 0 <= k < |s| && (r == -1 || k < r) ==> !p(s[k])
  {
    if |s| == 0 then -1
    else if p(s[0]) then 0
    else
      var k := FindIndex(s[1..], p);
      if k == -1 then -1 else k + 1
  }

  /** The first position where p holds is what findIndex reports. */
  lemma FindIndexIsFirst<T>(s: seq<T>, p: T -> bool, i: nat)
    requires i < |s| && p(s[i]) && forall k :: 0 <= k < i ==> !p(s[k])
    ensures FindIndex(s, p) == i
  {
    var r := FindIndex(s, p);
    assert r != -1 ==> !(r < i) && !(i < r);
  }

  lemma FindIndexNone<T>(s: seq<T>, p: T -> bool)
    requires forall k :: 0 <= k < |s| ==> !p(s[k])
    ensures FindIndex(s, p) == -1
  {
  }

  /** Array.prototype.filter. */
  function Filter<T>(s: seq<T>, p: T -> bool): (r: seq<T>)
    ensures |r| <= |s|
    ensures forall k :: 0 <= k < |r| ==> p(r[k])
    ensures forall k :: 0 <= k < |r| ==> r[k] in s
    ensures forall k :: 0 <= k < |s| && p(s[k]) ==> s[k] in r
  {
    if |s| == 0 then [] else (if p(s[0]) then [s[0]] else []) + Filter(s[1..], p)
  }

  /** `r` is `s` with some elements left out, the rest in their order. */
  predicate IsSubsequence<T(==)>(r: seq<T>, s: seq<T>)
    decreases |s|
  {
    if r == [] then true
    else if s == [] then false
    else (r[0] == s[0] && IsSubsequence(r[1..], s[1..])) || IsSubsequence(r, s[1..])
  }

  /** Filtering keeps the order of what it keeps. */
  lemma {:induction false} FilterSubsequence<T>(s: seq<T>, p: T -> bool)
    ensures IsSubsequence(Filter(s, p), s)
  {
    if s != [] {
      FilterSubsequence(s[1..], p);
      if p(s[0]) {
        assert Filter(s, p) == [s[0]] + Filter(s[1..], p);
        assert ([s[0]] + Filter(s[1..], p))[1..] == Filter(s[1..], p);
      } else {
        assert Filter(s, p) == Filter(s[1..], p);
      }
    }
  }

  /** Filtering a list whose every element passes changes nothing. */
  lemma {:induction false} FilterAll<T>(s: seq<T>, p: T -> bool)
    requires forall k :: 0 <= k < |s| ==> p(s[k])
    ensures Filter(s, p) == s
  {
    if |s| > 0 {
      FilterAll(s[1..], p);
    }
  }

  /** Filtering by a predicate and by its negation splits the list in two. */
  lemma {:induction false} FilterPartition<T>(s: seq<T>, p: T -> bool, q: T -> bool)
    requires forall x :: q(x) == !p(x)
    ensures |Filter(s, p)| + |Filter(s, q)| == |s|
  {
    if |s| > 0 {
      FilterPartition(s[1..], p, q);
    }
  }

  /** Filtering by two predicates that agree everywhere gives the same list. */
  lemma {:induction false} FilterSame<T>(s: seq<T>, p: T -> bool, q: T -> bool)
    requires forall x :: p(x) == q(x)
    ensures Filter(s, p) == Filter(s, q)
  {
    if |s| > 0 {
      FilterSame(s[1..], p, q);
    }
  }

  /** Filtering a list extended at the end extends the filtered list likewise. */
  lemma {:induction false} FilterAppend<T>(s: seq<T>, x: T, p: T -> bool)
    ensures Filter(s + [x], p) == Filter(s, p) + (if p(x) then [x] else [])
  {
    if |s| > 0 {
      assert (s + [x])[1..] == s[1..] + [x];
      FilterAppend(s[1..], x, p);
    }
  }

  /** `option || fallback` for an optional string option: a missing
      option and an empty string both give the fallback. */
  function OrDefault(option: Option<string>, fallback: string): (r: string)
    ensures option.Some? && option.value != "" ==> r == option.value
    ensures option.None? || option.value == "" ==> r == fallback
  {
    if option.Some? && option.value != "" then option.value else fallback
  }

  function Min(a: int, b: int): int { if a <= b then a else b }

  function Max(a: int, b: int): int { if a >= b then a else b }

  /** The first n elements (Array.prototype.slice(0, n)). */
  function Take<T>(s: seq<T>, n: nat): (r: seq<T>)
    ensures |r| == Min(n, |s|) && r == s[..|r|]
  {
    if n <= |s| then s[..n] else s
  }
}
