/** Playwright versions: the two regular expressions, the parsers that stand for them,
    and the agreement of the two version checks. */
module Versions {
  import opened Common
  import opened Tables

  // ------------------------------------------------ the regular expressions

  predicate Digit(ch: char) {
    '0' <= ch <= '9'
  }

  predicate Space(ch: char) {
    ch == ' ' || ch == '\t' || ch == '\n' || ch == '\r' || ch == 11 as char || ch == 12 as char
  }

  /** [0-9A-Za-z.-] */
  predicate TagChar(ch: char) {
    Digit(ch) || 'A' <= ch <= 'Z' || 'a' <= ch <= 'z' || ch == '.' || ch == '-'
  }

  /** The character classes by code point. */
  lemma CharacterClasses(ch: char)
    ensures Digit(ch) <==> 48 <= ch as int <= 57
    ensures Space(ch) <==> ch as int == 32 || 9 <= ch as int <= 13
    ensures TagChar(ch) <==>
            48 <= ch as int <= 57 || 65 <= ch as int <= 90 || 97 <= ch as int <= 122 || ch as int in {45, 46}
  {
  }

  /** [0-9]+ */
  predicate Number(s: string) {
    s != "" && forall i :: 0 <= i < |s| ==> Digit(s[i])
  }

  /** The optional pre-release or build part: its mark, then one or more TagChars. */
  predicate Tag(s: string, mark: char) {
    s == "" || (|s| > 1 && s[0] == mark && forall i :: 1 <= i < |s| ==> TagChar(s[i]))
  }

  /** The optional third part of an input version. */
  ghost predicate ThirdPart(s: string) {
    s == "" || exists patch, pre, build :: ThirdPartIs(s, patch, pre, build)
  }

  predicate ThirdPartIs(s: string, patch: string, pre: string, build: string) {
    s == "." + patch + pre + build && Number(patch) && Tag(pre, '-') && Tag(build, '+')
  }

  /** ^([0-9]+)\.([0-9]+)(\.[0-9]+(-[0-9A-Za-z.-]+)?(\+[0-9A-Za-z.-]+)?)?$ */
  ghost predicate InputVersion(s: string, major: string, minor: string) {
    exists rest :: s == major + "." + minor + rest && Number(major) && Number(minor) && ThirdPart(rest)
  }

  const PLAYWRIGHT := "Playwright/"

  /** What may follow the two numbers of a user agent's version. */
  ghost predicate AgentTail(s: string) {
    EndsWord(s) || exists patch, rest :: s == "." + patch + rest && Number(patch) && EndsWord(rest)
  }

  predicate EndsWord(s: string) {
    s == "" || Space(s[0])
  }

  /** The user-agent pattern, matched at the start of s. */
  ghost predicate AgentVersionAt(s: string, major: string, minor: string) {
    exists tail :: AgentVersionIs(s, major, minor, tail)
  }

  ghost predicate AgentVersionIs(s: string, major: string, minor: string, tail: string) {
    s == PLAYWRIGHT + (major + "." + minor + tail) && Number(major) && Number(minor) && AgentTail(tail)
  }

  // ------------------------------------------------------------ the parsers

  /** The longest prefix of digits. */
  function DigitRun(s: string): (n: nat)
    ensures n <= |s| && (forall i :: 0 <= i < n ==> Digit(s[i])) && (n < |s| ==> !Digit(s[n]))
  {
    if s != "" && Digit(s[0]) then 1 + DigitRun(s[1..]) else 0
  }

  /** The longest prefix of TagChars. */
  function TagRun(s: string): (n: nat)
    ensures n <= |s| && (forall i :: 0 <= i < n ==> TagChar(s[i])) && (n < |s| ==> !TagChar(s[n]))
  {
    if s != "" && TagChar(s[0]) then 1 + TagRun(s[1..]) else 0
  }

  /** Two numbers with a dot between them, and what follows. */
  function TwoNumbers(s: string): Option<(string, string, string)> {
    var a := DigitRun(s);
    if a == 0 || a == |s| || s[a] != '.' then None
    else
      var b := DigitRun(s[a + 1..]);
      if b == 0 then None else Some((s[..a], s[a + 1..][..b], s[a + 1..][b..]))
  }

  /** Removes a tag if there is one; None if its mark stands alone. */
  function SkipTag(s: string, mark: char): Option<string> {
    if s == "" || s[0] != mark then Some(s)
    else
      var n := TagRun(s[1..]);
      if n == 0 then None else Some(s[1..][n..])
  }

  predicate MatchesThirdPart(s: string) {
    s == "" ||
    (s[0] == '.' && DigitRun(s[1..]) > 0 &&
     var pre := SkipTag(s[1..][DigitRun(s[1..])..], '-');
     pre.Some? &&
     var build := SkipTag(pre.value, '+');
     build == Some(""))
  }

  /** The first two parts with a trailing dot. */
  function VersionPrefix(version: string): Option<string> {
    match TwoNumbers(version)
    case None => None
    case Some((major, minor, rest)) => if MatchesThirdPart(rest) then Some(major + "." + minor + ".") else None
  }

  predicate MatchesAgentTail(s: string) {
    EndsWord(s) ||
    (s[0] == '.' && DigitRun(s[1..]) > 0 && EndsWord(s[1..][DigitRun(s[1..])..]))
  }

  function AgentVersionHere(s: string): Option<(string, string)> {
    if !(PLAYWRIGHT <= s) then None
    else match TwoNumbers(s[|PLAYWRIGHT|..])
      case None => None
      case Some((major, minor, tail)) => if MatchesAgentTail(tail) then Some((major, minor)) else None
  }

  datatype AgentVersion = AgentVersion(version: string, prefix: string)

  /** The leftmost match in the user agent. */
  function UserAgentVersion(agent: string): Option<AgentVersion> {
    match AgentVersionHere(agent)
    case Some((major, minor)) => Some(AgentVersion(major + "." + minor, major + "." + minor + "."))
    case None => if agent == "" then None else UserAgentVersion(agent[1..])
  }

  // ------------------------------------- the parsers are the expressions

  lemma RunIsWholeNumber(number: string, rest: string)
    requires Number(number) && (rest == "" || !Digit(rest[0]))
    ensures DigitRun(number + rest) == |number|
    ensures (number + rest)[..|number|] == number && (number + rest)[|number|..] == rest
  {
    var s := number + rest;
    assert forall i :: 0 <= i < |number| ==> s[i] == number[i];
    assert rest != "" ==> s[|number|] == rest[0];
  }

  lemma TwoNumbersOf(major: string, minor: string, rest: string)
    requires Number(major) && Number(minor) && (rest == "" || !Digit(rest[0]))
    ensures TwoNumbers(major + "." + minor + rest) == Some((major, minor, rest))
  {
    var s := major + "." + minor + rest;
    assert s == major + ("." + minor + rest);
    RunIsWholeNumber(major, "." + minor + rest);
    assert s[|major| + 1..] == minor + rest;
    RunIsWholeNumber(minor, rest);
  }

  lemma TwoNumbersAre(s: string)
    requires TwoNumbers(s).Some?
    ensures var (major, minor, rest) := TwoNumbers(s).value;
            s == major + "." + minor + rest && Number(major) && Number(minor) && (rest == "" || !Digit(rest[0]))
  {
    var a := DigitRun(s);
    var b := DigitRun(s[a + 1..]);
    assert s == s[..a] + [s[a]] + s[a + 1..];
  }

  lemma SkipTagOf(tag: string, mark: char, rest: string)
    requires Tag(tag, mark)
    requires rest == "" || (!TagChar(rest[0]) && rest[0] != mark)
    ensures SkipTag(tag + rest, mark) == Some(rest)
  {
    if tag == "" {
      assert tag + rest == rest;
    } else {
      var s := tag + rest;
      assert s[1..] == tag[1..] + rest;
      assert forall i :: 0 <= i < |tag| - 1 ==> s[1..][i] == tag[i + 1];
      assert rest != "" ==> s[1..][|tag| - 1] == rest[0];
      assert TagRun(s[1..]) == |tag| - 1;
      assert s[1..][|tag| - 1..] == rest;
    }
  }

  lemma SkipTagIs(s: string, mark: char)
    requires SkipTag(s, mark).Some?
    ensures var rest := SkipTag(s, mark).value;
            |rest| <= |s| && s == s[..|s| - |rest|] + rest && Tag(s[..|s| - |rest|], mark)
  {
    var rest := SkipTag(s, mark).value;
    if s != "" && s[0] == mark {
      var n := TagRun(s[1..]);
      assert rest == s[n + 1..];
      assert forall i :: 1 <= i < n + 1 ==> s[i] == s[1..][i - 1];
    }
  }

  lemma ThirdPartMatches(s: string, patch: string, pre: string, build: string)
    requires ThirdPartIs(s, patch, pre, build)
    ensures MatchesThirdPart(s)
  {
    assert s[1..] == patch + (pre + build);
    RunIsWholeNumber(patch, pre + build);
    SkipTagOf(pre, '-', build);
    assert build + "" == build;
    SkipTagOf(build, '+', "");
  }

  lemma SplitTags(tags: string) returns (pre: string, build: string)
    requires SkipTag(tags, '-').Some? && SkipTag(SkipTag(tags, '-').value, '+') == Some("")
    ensures tags == pre + build && Tag(pre, '-') && Tag(build, '+')
  {
    build := SkipTag(tags, '-').value;
    SkipTagIs(tags, '-');
    SkipTagIs(build, '+');
    assert build[..|build|] == build;
    pre := tags[..|tags| - |build|];
  }

  lemma MatchIsThirdPart(s: string)
    requires MatchesThirdPart(s)
    ensures ThirdPart(s)
  {
    if s != "" {
      var n := DigitRun(s[1..]);
      var patch := s[1..][..n];
      var pre, build := SplitTags(s[1..][n..]);
      assert s[1..] == patch + (pre + build);
      JoinThirdPart(s, patch, pre, build);
    }
  }

  lemma JoinThirdPart(s: string, patch: string, pre: string, build: string)
    requires s != "" && s[0] == '.' && s[1..] == patch + (pre + build)
    requires Number(patch) && Tag(pre, '-') && Tag(build, '+')
    ensures ThirdPartIs(s, patch, pre, build)
  {
    assert s == "." + s[1..];
  }

  lemma ThirdPartIff(s: string)
    ensures MatchesThirdPart(s) <==> ThirdPart(s)
  {
    if ThirdPart(s) && s != "" {
      var patch, pre, build :| ThirdPartIs(s, patch, pre, build);
      ThirdPartMatches(s, patch, pre, build);
    }
    if MatchesThirdPart(s) {
      MatchIsThirdPart(s);
    }
  }

  /** Main result: VersionPrefix accepts exactly the strings of its regular
      expression, and its answer is made of the two groups. */
  lemma VersionPrefixIsTheRegex(version: string, prefix: string)
    ensures VersionPrefix(version) == Some(prefix) <==>
            exists major, minor :: InputVersion(version, major, minor) && prefix == major + "." + minor + "."
  {
    if VersionPrefix(version) == Some(prefix) {
      TwoNumbersAre(version);
      var (major, minor, rest) := TwoNumbers(version).value;
      ThirdPartIff(rest);
      assert InputVersion(version, major, minor);
    }
    if exists major, minor :: InputVersion(version, major, minor) && prefix == major + "." + minor + "." {
      var major, minor :| InputVersion(version, major, minor) && prefix == major + "." + minor + ".";
      var rest :| version == major + "." + minor + rest && Number(major) && Number(minor) && ThirdPart(rest);
      ThirdPartStartsWithDot(rest);
      TwoNumbersOf(major, minor, rest);
      ThirdPartIff(rest);
    }
  }

  lemma ThirdPartStartsWithDot(rest: string)
    requires ThirdPart(rest)
    ensures rest == "" || rest[0] == '.'
  {
  }

  lemma AgentTailIff(s: string)
    ensures MatchesAgentTail(s) <==> AgentTail(s)
    ensures AgentTail(s) ==> s == "" || !Digit(s[0])
  {
    if AgentTail(s) && !EndsWord(s) {
      var patch, rest :| s == "." + patch + rest && Number(patch) && EndsWord(rest);
      assert s[1..] == patch + rest;
      RunIsWholeNumber(patch, rest);
    }
    if MatchesAgentTail(s) && !EndsWord(s) {
      var n := DigitRun(s[1..]);
      assert s == "." + s[1..][..n] + s[1..][n..];
    }
  }

  lemma HereIsAMatch(s: string)
    requires AgentVersionHere(s).Some?
    ensures AgentVersionAt(s, AgentVersionHere(s).value.0, AgentVersionHere(s).value.1)
  {
    var rest := s[|PLAYWRIGHT|..];
    TwoNumbersAre(rest);
    var (major, minor, tail) := TwoNumbers(rest).value;
    AgentTailIff(tail);
    assert s == PLAYWRIGHT + rest;
    assert AgentVersionIs(s, major, minor, tail);
  }

  lemma MatchIsHere(s: string, major: string, minor: string)
    requires AgentVersionAt(s, major, minor)
    ensures AgentVersionHere(s) == Some((major, minor))
  {
    var tail :| AgentVersionIs(s, major, minor, tail);
    assert s[|PLAYWRIGHT|..] == major + "." + minor + tail;
    AgentTailIff(tail);
    TwoNumbersOf(major, minor, tail);
  }

  /** Some match of the user-agent pattern starts at position i. */
  ghost predicate MatchesAt(agent: string, i: nat, major: string, minor: string) {
    i <= |agent| && AgentVersionAt(agent[i..], major, minor)
  }

  lemma MatchesShift(agent: string, i: nat, major: string, minor: string)
    requires 0 < i <= |agent|
    ensures MatchesAt(agent, i, major, minor) <==> MatchesAt(agent[1..], i - 1, major, minor)
  {
    assert agent[1..][i - 1..] == agent[i..];
  }

  /** Main result: an answer of UserAgentVersion is the leftmost match of its regular
      expression. */
  lemma {:induction false} UserAgentVersionIsLeftmost(agent: string) returns (i: nat, major: string, minor: string)
    requires UserAgentVersion(agent).Some?
    ensures MatchesAt(agent, i, major, minor)
    ensures UserAgentVersion(agent).value == AgentVersion(major + "." + minor, major + "." + minor + ".")
    ensures forall j: nat, a, b :: j < i ==> !MatchesAt(agent, j, a, b)
    decreases |agent|
  {
    assert agent[0..] == agent;
    if AgentVersionHere(agent).Some? {
      HereIsAMatch(agent);
      i, major, minor := 0, AgentVersionHere(agent).value.0, AgentVersionHere(agent).value.1;
    } else {
      i, major, minor := UserAgentVersionIsLeftmost(agent[1..]);
      i := i + 1;
      MatchesShift(agent, i, major, minor);
      forall j: nat, a, b | j < i
        ensures !MatchesAt(agent, j, a, b)
      {
        if j == 0 {
          if MatchesAt(agent, 0, a, b) {
            MatchIsHere(agent, a, b);
          }
        } else {
          MatchesShift(agent, j, a, b);
        }
      }
    }
  }

  /** Main result: UserAgentVersion finds nothing only when nothing matches. */
  lemma {:induction false} UserAgentVersionMissesNothing(agent: string, i: nat, major: string, minor: string)
    requires MatchesAt(agent, i, major, minor)
    ensures UserAgentVersion(agent).Some?
    decreases |agent|
  {
    if i == 0 {
      assert agent[0..] == agent;
      MatchIsHere(agent, major, minor);
    } else {
      MatchesShift(agent, i, major, minor);
      UserAgentVersionMissesNothing(agent[1..], i - 1, major, minor);
    }
  }

  /** A plain Playwright user agent is read: its name, the version's two numbers, and an end
      or white space after them or after a third number. */
  lemma PlainAgentIsRead(major: string, minor: string)
    requires Number(major) && Number(minor)
    ensures UserAgentVersion("Playwright/" + major + "." + minor) ==
            Some(AgentVersion(major + "." + minor, major + "." + minor + "."))
  {
    var agent := "Playwright/" + major + "." + minor;
    assert agent == PLAYWRIGHT + (major + "." + minor + "");
    assert AgentVersionIs(agent, major, minor, "");
    MatchIsHere(agent, major, minor);
  }

  lemma WordsEnd(s: string)
    ensures EndsWord(s) <==> s == "" || s[0] as int == 32 || 9 <= s[0] as int <= 13
  {
  }

  // --------------------------------------------- the two checks agree

  /** The prefixes that user agents produce. */
  ghost predicate ClientPrefix(prefix: string) {
    exists major, minor :: Number(major) && Number(minor) && prefix == major + "." + minor + "."
  }

  /** Worker registration demands three numbers at the start and leaves the rest open. */
  ghost predicate Registrable(version: string) {
    exists major, minor, patch, tail :: RegistrableIs(version, major, minor, patch, tail)
  }

  predicate RegistrableIs(version: string, major: string, minor: string, patch: string, tail: string) {
    version == major + "." + minor + "." + patch + tail && Number(major) && Number(minor) && Number(patch)
  }

  /** The starts-with test compares whole numbers: 1.62. is no prefix of 1.620.0. */
  lemma PrefixOfThreeParts(major: string, minor: string, more: string, a: string, b: string)
    requires Number(major) && Number(minor) && Number(a) && Number(b)
    ensures StartsWith(major + "." + minor + "." + more, a + "." + b + ".") <==> a == major && b == minor
  {
    if StartsWith(major + "." + minor + "." + more, a + "." + b + ".") {
      PrefixHasItsNumbers(major, minor, more, a, b);
    }
  }

  lemma PrefixHasItsNumbers(major: string, minor: string, more: string, a: string, b: string)
    requires Number(major) && Number(minor) && Number(a) && Number(b)
    requires StartsWith(major + "." + minor + "." + more, a + "." + b + ".")
    ensures a == major && b == minor
  {
    var version, prefix := major + "." + minor + "." + more, a + "." + b + ".";
    var rest := version[|prefix|..];
    DotFirst(a, b, rest);
    TwoNumbersOf(a, b, "." + rest);
    DotFirst(major, minor, more);
    TwoNumbersOf(major, minor, "." + more);
    assert version == prefix + rest;
  }

  lemma DotFirst(major: string, minor: string, more: string)
    ensures major + "." + minor + "." + more == major + "." + minor + ("." + more)
  {
  }

  /** Main result: for a worker version that registration accepts, the explicit
      check (equal prefixes) passes exactly when the claim query's test (starts with
      the client's prefix) passes and VersionPrefix accepts the version at all. */
  lemma VersionChecksAgree(version: string, prefix: string)
    requires Registrable(version) && ClientPrefix(prefix)
    ensures VersionPrefix(version) == Some(prefix) <==> StartsWith(version, prefix) && VersionPrefix(version).Some?
  {
    var major, minor, patch, tail :| RegistrableIs(version, major, minor, patch, tail);
    var a, b :| Number(a) && Number(b) && prefix == a + "." + b + ".";
    assert version == major + "." + minor + "." + (patch + tail) == major + "." + minor + ("." + (patch + tail));
    PrefixOfThreeParts(major, minor, patch + tail, a, b);
    TwoNumbersOf(major, minor, "." + (patch + tail));
    if VersionPrefix(version) == Some(prefix) {
      SamePrefixSameNumbers(major, minor, a, b);
    }
  }

  lemma SamePrefixSameNumbers(major: string, minor: string, a: string, b: string)
    requires Number(major) && Number(minor) && Number(a) && Number(b)
    requires major + "." + minor + "." == a + "." + b + "."
    ensures major == a && minor == b
  {
    TwoNumbersOf(major, minor, ".");
    TwoNumbersOf(a, b, ".");
  }

  /** The checks do differ on versions that only registration accepts, such as those
      with a fourth number: a client that a claim may give such a worker is turned
      away when it attaches explicitly. */
  lemma ChecksDifferOnFourParts(major: string, minor: string, patch: string, fourth: string)
    requires Number(major) && Number(minor) && Number(patch) && Number(fourth)
    ensures var version := major + "." + minor + "." + patch + "." + fourth;
            Registrable(version) && ClientPrefix(major + "." + minor + ".") &&
            StartsWith(version, major + "." + minor + ".") && VersionPrefix(version) == None
  {
    var tail := "." + fourth;
    var version := major + "." + minor + "." + patch + "." + fourth;
    FourPartsAre(major, minor, patch, fourth);
    assert RegistrableIs(version, major, minor, patch, tail);
    TwoNumbersOf(major, minor, "." + (patch + tail));
    FourthPartFails(patch, tail);
  }

  lemma FourPartsAre(major: string, minor: string, patch: string, fourth: string)
    ensures var version, tail := major + "." + minor + "." + patch + "." + fourth, "." + fourth;
            version == major + "." + minor + "." + patch + tail &&
            version == major + "." + minor + ("." + (patch + tail)) &&
            StartsWith(version, major + "." + minor + ".")
  {
  }

  lemma FourthPartFails(patch: string, tail: string)
    requires Number(patch) && tail != "" && tail[0] == '.'
    ensures !MatchesThirdPart("." + (patch + tail))
  {
    var rest := "." + (patch + tail);
    assert rest[1..] == patch + tail;
    RunIsWholeNumber(patch, tail);
  }

  /** The version that a user agent yields has the user agent's prefix. */
  lemma AgentVersionHasItsPrefix(agent: string)
    requires UserAgentVersion(agent).Some?
    ensures VersionPrefix(UserAgentVersion(agent).value.version) == Some(UserAgentVersion(agent).value.prefix)
    ensures ClientPrefix(UserAgentVersion(agent).value.prefix)
  {
    var i, major, minor := UserAgentVersionIsLeftmost(agent);
    assert major + "." + minor == major + "." + minor + "";
    TwoNumbersOf(major, minor, "");
  }
}
