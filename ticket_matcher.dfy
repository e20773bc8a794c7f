/**
 * The ticket-link matcher (`TicketMatcher` in src/index.js).
 *
 * The source builds the regular expression
 *   Escape(baseUrl) + `\/projects\/(\d+)\/tickets\/(\d+)`   with flag `i`
 * and returns the two captured digit runs of its first match. No regular
 * expression engine is modelled: `LitMatch` interprets the literal fragment
 * that escaping produces, and `ExecAt` follows the fixed tail of the pattern
 * the way a backtracking engine does (greedy `\d+`, whose only successful
 * choice is the longest run, because it is followed by `/` or by the end).
 */
module TicketMatcher {
  import opened Wrappers
  import opened Text

  /** What `extractTicketInfo` returns: both digit runs, as strings. */
  datatype TicketRef = TicketRef(projectId: string, ticketId: string)

  /** A successful `String.prototype.match`: where the match starts and the array [whole, group 1, group 2]. */
  datatype RegExpMatch = RegExpMatch(index: nat, groups: seq<string>)

  /** The characters of the class `[.*+?^${}()|[\]\\]` that `getRegex` escapes. */
  predicate IsMeta(c: char) {
    c in ".*+?^${}()|[]\\"
  }

  /** Characters that stand for themselves after a backslash in the pattern: the metacharacters and `/`. */
  predicate IsIdentityEscape(c: char) {
    IsMeta(c) || c == '/'
  }

  /** `baseUrl.replace(/[.*+?^${}()|[\]\\]/g, '\\$&')`: a backslash before every metacharacter. */
  function Escape(s: string): string
    decreases |s|
  {
    if s == [] then []
    else (if IsMeta(s[0]) then ['\\', s[0]] else [s[0]]) + Escape(s[1..])
  }

  function CountMeta(s: string): nat
    decreases |s|
  {
    if s == [] then 0 else (if IsMeta(s[0]) then 1 else 0) + CountMeta(s[1..])
  }

  /**
   * Reads a pattern made only of literal characters and identity escapes back
   * into the string of characters it matches; `None` when the pattern holds an
   * unescaped metacharacter or a dangling or non-literal escape, that is, when
   * it is not a literal pattern.
   */
  function Unescape(e: string): Option<string>
    decreases |e|
  {
    if e == [] then Some([])
    else if e[0] == '\\' then
      if |e| >= 2 && IsIdentityEscape(e[1]) then
        match Unescape(e[2..])
        case Some(u) => Some([e[1]] + u)
        case None => None
      else None
    else if IsMeta(e[0]) then None
    else
      match Unescape(e[1..])
      case Some(u) => Some([e[0]] + u)
      case None => None
  }

  predicate IsLiteralPattern(e: string) {
    Unescape(e).Some?
  }

  /** Escaping inserts exactly one character per metacharacter. */
  lemma {:induction false} EscapeLength(s: string)
    ensures |Escape(s)| == |s| + CountMeta(s)
    decreases |s|
  {
    if s != [] {
      EscapeLength(s[1..]);
    }
  }

  /** Removing the inserted backslashes gives back the base URL, so the escaped URL is a literal pattern. */
  lemma {:induction false} EscapeRoundTrip(s: string)
    ensures Unescape(Escape(s)) == Some(s)
    decreases |s|
  {
    if s != [] {
      EscapeRoundTrip(s[1..]);
      var head := if IsMeta(s[0]) then ['\\', s[0]] else [s[0]];
      assert Escape(s) == head + Escape(s[1..]);
      if IsMeta(s[0]) {
        assert Escape(s)[2..] == Escape(s[1..]);
      } else {
        assert Escape(s)[1..] == Escape(s[1..]);
      }
      assert s == [s[0]] + s[1..];
    }
  }

  /** A URL without metacharacters is embedded in the pattern unchanged. */
  lemma {:induction false} EscapeIdentity(s: string)
    ensures Escape(s) == s <==> CountMeta(s) == 0
    decreases |s|
  {
    EscapeLength(s);
    if s != [] && CountMeta(s) == 0 {
      EscapeIdentity(s[1..]);
    }
  }

  /**
   * Matching a literal pattern at position `i` of `t`, ignoring ASCII case:
   * the position just after the match, if there is one.
   */
  function LitMatch(e: string, t: string, i: nat): (r: Option<nat>)
    requires IsLiteralPattern(e) && i <= |t|
    ensures r.Some? ==> r.value == i + |Unescape(e).value| <= |t|
    decreases |e|
  {
    if e == [] then Some(i)
    else
      var c := if e[0] == '\\' then e[1] else e[0];
      var rest := if e[0] == '\\' then e[2..] else e[1..];
      if i < |t| && Fold(t[i]) == Fold(c) then LitMatch(rest, t, i + 1) else None
  }

  /** A literal pattern matches exactly where the string it denotes occurs, up to case. */
  lemma {:induction false} LitMatchLiteral(e: string, t: string, i: nat)
    requires IsLiteralPattern(e) && i <= |t|
    ensures LitMatch(e, t, i).Some? <==> CiPrefix(Unescape(e).value, t, i)
    decreases |e|
  {
    if e != [] {
      var c := if e[0] == '\\' then e[1] else e[0];
      var rest := if e[0] == '\\' then e[2..] else e[1..];
      assert IsLiteralPattern(rest);
      var u := Unescape(rest).value;
      assert Unescape(e).value == [c] + u;
      if i < |t| {
        LitMatchLiteral(rest, t, i + 1);
        CiPrefixCons(c, u, t, i);
      }
    }
  }

  /** Escaping is what makes the base URL match itself literally: `.` or `+` in it match only `.` or `+`. */
  lemma EscapedUrlMatchesLiterally(s: string, t: string, i: nat)
    requires i <= |t|
    ensures IsLiteralPattern(Escape(s))
    ensures LitMatch(Escape(s), t, i) == if CiPrefix(s, t, i) then Some(i + |s|) else None
  {
    EscapeRoundTrip(s);
    LitMatchLiteral(Escape(s), t, i);
  }

  /** The fixed segments of the pattern, `\/projects\/` and `\/tickets\/`, as the text they match. */
  const ProjectsSeg: string := "/projects/"
  const TicketsSeg: string := "/tickets/"

  /**
   * `getRegex()`: the escaped base URL that heads the pattern. Reading it back
   * as a literal pattern gives the base URL itself.
   */
  function GetRegex(baseUrl: string): (pattern: string)
    ensures IsLiteralPattern(pattern) && Unescape(pattern).value == baseUrl
  {
    EscapeRoundTrip(baseUrl);
    Escape(baseUrl)
  }

  /**
   * The pattern headed by the literal `pattern`, tried at one start position:
   * the match array [whole, projectId, ticketId], or `None` when no match
   * starts at `i`.
   */
  function ExecAt(pattern: string, t: string, i: nat): (r: Option<seq<string>>)
    requires IsLiteralPattern(pattern) && i <= |t|
    ensures r.Some? ==> |r.value| == 3 && IsDigitString(r.value[1]) && IsDigitString(r.value[2])
  {
    match LitMatch(pattern, t, i)
    case None => None
    case Some(j) => ExecTail(t, i, j)
  }

  /** The rest of the pattern, `\/projects\/(\d+)\/tickets\/(\d+)`, from position `j`, for a match that started at `i`. */
  function ExecTail(t: string, i: nat, j: nat): (r: Option<seq<string>>)
    requires i <= j <= |t|
    ensures r.Some? ==> |r.value| == 3 && IsDigitString(r.value[1]) && IsDigitString(r.value[2])
  {
    if !CiPrefix(ProjectsSeg, t, j) then None
    else
      var ps := j + |ProjectsSeg|;
      var p := DigitRun(t, ps);
      if p == 0 || !CiPrefix(TicketsSeg, t, ps + p) then None
      else
        var ts := ps + p + |TicketsSeg|;
        var q := DigitRun(t, ts);
        if q == 0 then None
        else Some([t[i..ts + q], t[ps..ps + p], t[ts..ts + q]])
  }

  /**
   * `text.match(regex)`: the first start position, from `from` on, where the
   * pattern matches, with its match array.
   */
  function Search(pattern: string, t: string, from: nat): (r: Option<RegExpMatch>)
    requires IsLiteralPattern(pattern) && from <= |t|
    ensures r.Some? ==> from <= r.value.index <= |t| && ExecAt(pattern, t, r.value.index) == Some(r.value.groups)
    ensures r.Some? ==> forall j :: from <= j < r.value.index ==> ExecAt(pattern, t, j).None?
    ensures r.None? ==> forall j :: from <= j <= |t| ==> ExecAt(pattern, t, j).None?
    decreases |t| - from
  {
    var m := ExecAt(pattern, t, from);
    if m.Some? then Some(RegExpMatch(from, m.value))
    else if from == |t| then None
    else Search(pattern, t, from + 1)
  }

  /** `(text || '')`: an absent description reads as the empty string. */
  function TextOrEmpty(text: Option<string>): string {
    match text
    case Some(s) => s
    case None => ""
  }

  /** `extractTicketInfo(text)`, with the source's `matches.length < 3` guard. */
  function ExtractTicketInfo(baseUrl: string, text: Option<string>): (r: Option<TicketRef>)
    ensures r.Some? ==> IsDigitString(r.value.projectId) && IsDigitString(r.value.ticketId)
  {
    var pattern := GetRegex(baseUrl);
    var m := Search(pattern, TextOrEmpty(text), 0);
    if m.None? || |m.value.groups| < 3 then None
    else Some(TicketRef(m.value.groups[1], m.value.groups[2]))
  }

  // ---------------------------------------------------------------------------
  // The pattern stated declaratively, and what the matcher computes in its terms
  // ---------------------------------------------------------------------------

  /**
   * `<baseUrl>/projects/<pid>/tickets/<tid>` occurs at `i`, ignoring ASCII
   * case, with digit-only ids: the base URL, then the rest of the pattern.
   * `PatternIsOccurrence` shows this is one occurrence of the concatenation.
   */
  predicate PatternAt(baseUrl: string, t: string, i: nat, pid: string, tid: string) {
    CiPrefix(baseUrl, t, i) && TailAt(t, i + |baseUrl|, pid, tid)
  }

  function MatchEnd(baseUrl: string, i: nat, pid: string, tid: string): nat {
    TailEnd(i + |baseUrl|, pid, tid)
  }

  /** The occurrence the regular expression reports at `i`: the ticket id runs as far as the digits go. */
  predicate TicketAt(baseUrl: string, t: string, i: nat, pid: string, tid: string) {
    PatternAt(baseUrl, t, i, pid, tid) &&
    var e := MatchEnd(baseUrl, i, pid, tid);
    e == |t| || !IsDigit(t[e])
  }

  /** No occurrence of the pattern starts before `i`. */
  ghost predicate NoneBefore(baseUrl: string, t: string, i: nat) {
    forall j: nat, pid, tid :: j < i ==> !PatternAt(baseUrl, t, j, pid, tid)
  }

  lemma CiPrefixSlice(t: string, a: nat, b: nat)
    requires a <= b <= |t|
    ensures CiPrefix(t[a..b], t, a)
  {
  }

  lemma CiPrefixDigits(s: string, t: string, i: nat)
    requires AllDigits(s) && CiPrefix(s, t, i)
    ensures t[i..i + |s|] == s
  {
    forall k | 0 <= k < |s| ensures t[i + k] == s[k] {
      FoldDigit(t[i + k], s[k]);
    }
  }

  /** The tail of the pattern occurs at `j`: `/projects/<pid>/tickets/<tid>`, piece by piece. */
  predicate TailAt(t: string, j: nat, pid: string, tid: string) {
    var ps := j + |ProjectsSeg|;
    var ts := ps + |pid| + |TicketsSeg|;
    IsDigitString(pid) && IsDigitString(tid) &&
    CiPrefix(ProjectsSeg, t, j) && CiPrefix(pid, t, ps) && CiPrefix(TicketsSeg, t, ps + |pid|) && CiPrefix(tid, t, ts)
  }

  /** The pattern occurs exactly where the whole string `<baseUrl>/projects/<pid>/tickets/<tid>` occurs, up to case. */
  lemma PatternIsOccurrence(baseUrl: string, t: string, i: nat, pid: string, tid: string)
    ensures PatternAt(baseUrl, t, i, pid, tid) <==>
      IsDigitString(pid) && IsDigitString(tid) && CiPrefix(baseUrl + ProjectsSeg + pid + TicketsSeg + tid, t, i)
  {
    CiPrefixConcat(baseUrl + ProjectsSeg + pid + TicketsSeg, tid, t, i);
    CiPrefixConcat(baseUrl + ProjectsSeg + pid, TicketsSeg, t, i);
    CiPrefixConcat(baseUrl + ProjectsSeg, pid, t, i);
    CiPrefixConcat(baseUrl, ProjectsSeg, t, i);
  }

  /** Where an occurrence of the tail that starts at `j` ends. */
  function TailEnd(j: nat, pid: string, tid: string): nat {
    j + |ProjectsSeg| + |pid| + |TicketsSeg| + |tid|
  }

  lemma ExecTailSound(t: string, i: nat, j: nat, m: seq<string>)
    requires i <= j <= |t| && ExecTail(t, i, j) == Some(m)
    ensures TailAt(t, j, m[1], m[2])
    ensures TailEnd(j, m[1], m[2]) == |t| || !IsDigit(t[TailEnd(j, m[1], m[2])])
    ensures m[0] == t[i..TailEnd(j, m[1], m[2])]
    ensures m[1] == t[j + |ProjectsSeg|..j + |ProjectsSeg| + |m[1]|]
    ensures m[2] == t[TailEnd(j, m[1], m[2]) - |m[2]|..TailEnd(j, m[1], m[2])]
  {
    CiPrefixSlice(t, j + |ProjectsSeg|, j + |ProjectsSeg| + |m[1]|);
    CiPrefixSlice(t, TailEnd(j, m[1], m[2]) - |m[2]|, TailEnd(j, m[1], m[2]));
  }

  lemma ExecTailComplete(t: string, i: nat, j: nat, pid: string, tid: string)
    requires i <= j <= |t| && TailAt(t, j, pid, tid)
    ensures ExecTail(t, i, j).Some? && ExecTail(t, i, j).value[1] == pid
    ensures var e := j + |ProjectsSeg| + |pid| + |TicketsSeg| + |tid|;
      (e == |t| || !IsDigit(t[e])) ==> ExecTail(t, i, j).value[2] == tid
  {
    var ps := j + |ProjectsSeg|;
    var ts := ps + |pid| + |TicketsSeg|;
    CiPrefixDigits(pid, t, ps);
    CiPrefixDigits(tid, t, ts);
    assert Fold(t[ps + |pid|]) == Fold(TicketsSeg[0]);
    DigitRunExact(t, ps, |pid|);
    DigitRunCovers(t, ts, |tid|);
    var e := ts + |tid|;
    if e == |t| || !IsDigit(t[e]) {
      DigitRunExact(t, ts, |tid|);
    }
  }

  /** `pattern` is a literal pattern that matches exactly `baseUrl`, as `GetRegex(baseUrl)` is. */
  predicate Denotes(pattern: string, baseUrl: string) {
    IsLiteralPattern(pattern) && Unescape(pattern).value == baseUrl
  }

  /** Once the base URL has matched, the rest of the pattern decides. */
  lemma ExecAtIsTail(pattern: string, baseUrl: string, t: string, i: nat)
    requires Denotes(pattern, baseUrl) && i <= |t|
    ensures ExecAt(pattern, t, i) == if CiPrefix(baseUrl, t, i) then ExecTail(t, i, i + |baseUrl|) else None
  {
    LitMatchLiteral(pattern, t, i);
  }

  /** Whatever `ExecAt` returns is an occurrence of the pattern, copied verbatim, with a maximal ticket id. */
  lemma ExecAtSound(pattern: string, baseUrl: string, t: string, i: nat, m: seq<string>)
    requires Denotes(pattern, baseUrl) && i <= |t| && ExecAt(pattern, t, i) == Some(m)
    ensures TicketAt(baseUrl, t, i, m[1], m[2])
    ensures m[0] == t[i..MatchEnd(baseUrl, i, m[1], m[2])]
    ensures m[1] == t[i + |baseUrl| + |ProjectsSeg|..i + |baseUrl| + |ProjectsSeg| + |m[1]|]
    ensures m[2] == t[MatchEnd(baseUrl, i, m[1], m[2]) - |m[2]|..MatchEnd(baseUrl, i, m[1], m[2])]
  {
    ExecAtIsTail(pattern, baseUrl, t, i);
    ExecTailSound(t, i, i + |baseUrl|, m);
  }

  /** Every occurrence of the pattern is found by `ExecAt` at its start, with the same project id. */
  lemma ExecAtComplete(pattern: string, baseUrl: string, t: string, i: nat, pid: string, tid: string)
    requires Denotes(pattern, baseUrl) && PatternAt(baseUrl, t, i, pid, tid)
    ensures i <= |t| && ExecAt(pattern, t, i).Some?
    ensures ExecAt(pattern, t, i).value[1] == pid
    ensures TicketAt(baseUrl, t, i, pid, tid) ==> ExecAt(pattern, t, i).value[2] == tid
  {
    ExecAtIsTail(pattern, baseUrl, t, i);
    ExecTailComplete(t, i, i + |baseUrl|, pid, tid);
  }

  /** No start position before `i` matches, so no occurrence of the pattern starts there. */
  lemma NoneBeforeFromExec(pattern: string, baseUrl: string, t: string, i: nat)
    requires Denotes(pattern, baseUrl) && i <= |t| && forall j :: 0 <= j < i ==> ExecAt(pattern, t, j).None?
    ensures NoneBefore(baseUrl, t, i)
  {
    forall j: nat, pid, tid | j < i && PatternAt(baseUrl, t, j, pid, tid) ensures false {
      ExecAtComplete(pattern, baseUrl, t, j, pid, tid);
    }
  }

  // ---------------------------------------------------------------------------
  // extractTicketInfo, specified
  // ---------------------------------------------------------------------------

  /** `null` exactly when the text holds no occurrence of the pattern. */
  lemma ExtractNoMatch(baseUrl: string, text: Option<string>)
    ensures ExtractTicketInfo(baseUrl, text).None? <==>
      forall i: nat, pid, tid :: !PatternAt(baseUrl, TextOrEmpty(text), i, pid, tid)
  {
    var t := TextOrEmpty(text);
    var pattern := GetRegex(baseUrl);
    var m := Search(pattern, t, 0);
    if m.Some? {
      ExecAtSound(pattern, baseUrl, t, m.value.index, m.value.groups);
    } else {
      forall i: nat, pid, tid | PatternAt(baseUrl, t, i, pid, tid) ensures false {
        ExecAtComplete(pattern, baseUrl, t, i, pid, tid);
      }
    }
  }

  /** An absent or empty description never yields a ticket. */
  lemma ExtractEmptyText(baseUrl: string, text: Option<string>)
    requires text == None || text == Some("")
    ensures ExtractTicketInfo(baseUrl, text) == None
  {
    ExtractNoMatch(baseUrl, text);
  }

  /**
   * A found ticket comes from the leftmost occurrence of the pattern; both ids
   * are non-empty digit strings copied verbatim from the text (leading zeros
   * kept), and the ticket id is the whole digit run.
   */
  lemma ExtractLeftmost(baseUrl: string, text: Option<string>) returns (i: nat)
    requires ExtractTicketInfo(baseUrl, text).Some?
    ensures var r := ExtractTicketInfo(baseUrl, text).value;
      var t := TextOrEmpty(text);
      var e := MatchEnd(baseUrl, i, r.projectId, r.ticketId);
      && TicketAt(baseUrl, t, i, r.projectId, r.ticketId)
      && NoneBefore(baseUrl, t, i)
      && r.projectId == t[i + |baseUrl| + |ProjectsSeg|..i + |baseUrl| + |ProjectsSeg| + |r.projectId|]
      && r.ticketId == t[e - |r.ticketId|..e]
  {
    var t := TextOrEmpty(text);
    var pattern := GetRegex(baseUrl);
    var m := Search(pattern, t, 0).value;
    i := m.index;
    ExecAtSound(pattern, baseUrl, t, i, m.groups);
    NoneBeforeFromExec(pattern, baseUrl, t, i);
  }

  /** The converse: the leftmost reported occurrence determines the result, so the matcher is deterministic. */
  lemma ExtractDetermined(baseUrl: string, text: Option<string>, i: nat, pid: string, tid: string)
    requires TicketAt(baseUrl, TextOrEmpty(text), i, pid, tid) && NoneBefore(baseUrl, TextOrEmpty(text), i)
    ensures ExtractTicketInfo(baseUrl, text) == Some(TicketRef(pid, tid))
  {
    var t := TextOrEmpty(text);
    var pattern := GetRegex(baseUrl);
    ExecAtComplete(pattern, baseUrl, t, i, pid, tid);
    var m := Search(pattern, t, 0);
    if m.None? || m.value.index != i {
      if m.Some? && m.value.index < i {
        ExecAtSound(pattern, baseUrl, t, m.value.index, m.value.groups);
      }
      assert false;
    }
  }

  /** The case of the base URL does not matter. */
  lemma ExtractIgnoresUrlCase(baseUrl: string, baseUrl': string, text: Option<string>)
    requires FoldEqual(baseUrl, baseUrl')
    ensures ExtractTicketInfo(baseUrl, text) == ExtractTicketInfo(baseUrl', text)
  {
    var t := TextOrEmpty(text);
    forall i: nat ensures CiPrefix(baseUrl, t, i) <==> CiPrefix(baseUrl', t, i) {
      CiPrefixFoldEqual(baseUrl, baseUrl', t, i);
    }
    SameOccurrencesSameResult(baseUrl, text, baseUrl', text);
  }

  /** The case of the letters in the text does not matter either: only digits are returned, and digits have no case. */
  lemma ExtractIgnoresTextCase(baseUrl: string, text: string, text': string)
    requires FoldEqual(text, text')
    ensures ExtractTicketInfo(baseUrl, Some(text)) == ExtractTicketInfo(baseUrl, Some(text'))
  {
    forall i: nat, pid, tid
      ensures PatternAt(baseUrl, text, i, pid, tid) <==> PatternAt(baseUrl, text', i, pid, tid)
      ensures TicketAt(baseUrl, text, i, pid, tid) <==> TicketAt(baseUrl, text', i, pid, tid)
    {
      CiPrefixFoldEqualText(baseUrl + ProjectsSeg + pid + TicketsSeg + tid, text, text', i);
      var e := MatchEnd(baseUrl, i, pid, tid);
      if e < |text| {
        assert Fold(text[e]) == Fold(text'[e]);
        if IsDigit(text[e]) {
          FoldDigit(text'[e], text[e]);
        }
        if IsDigit(text'[e]) {
          FoldDigit(text[e], text'[e]);
        }
      }
    }
    SameOccurrencesSameResult(baseUrl, Some(text), baseUrl, Some(text'));
  }

  /** Two inputs with the same occurrences of the pattern get the same answer. */
  lemma SameOccurrencesSameResult(b: string, text: Option<string>, b': string, text': Option<string>)
    requires forall i: nat, pid, tid ::
      PatternAt(b, TextOrEmpty(text), i, pid, tid) == PatternAt(b', TextOrEmpty(text'), i, pid, tid)
    requires forall i: nat, pid, tid ::
      TicketAt(b, TextOrEmpty(text), i, pid, tid) == TicketAt(b', TextOrEmpty(text'), i, pid, tid)
    ensures ExtractTicketInfo(b, text) == ExtractTicketInfo(b', text')
  {
    ExtractNoMatch(b, text);
    ExtractNoMatch(b', text');
    if ExtractTicketInfo(b, text).Some? {
      var r := ExtractTicketInfo(b, text).value;
      var i := ExtractLeftmost(b, text);
      ExtractDetermined(b', text', i, r.projectId, r.ticketId);
    }
  }
}
