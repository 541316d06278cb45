/**
 * The upload form of the mastering screen: the rule its `reference_url`
 * field must satisfy (at least two characters, and a YouTube watch or
 * short link), the messages it reports, and the parts `onSubmit` sends.
 *
 * The link rule is the regular expression
 *   ^(https?://)?(www\.)?(youtube\.com/watch\?v=|youtu\.be/)[\w-]{11}(&.*)?$
 * written twice: `RegexMatches` follows its grammar (some choice of the
 * optional parts fits), `IsYoutubeLink` checks it left to right, and
 * `YoutubeLinkMatchesRegex` proves the two agree on every string.
 */
module ReferenceUrl {
  import opened Wrappers
  import Forms

  const MinLength: nat := 2
  const RequiredMessage: string := "Reference track is required"
  const InvalidLinkMessage: string := "Please enter a valid YouTube link"

  /** Alternatives of the three leading groups of the expression. */
  const Schemes: seq<string> := ["", "http://", "https://"]
  const WwwPrefixes: seq<string> := ["", "www."]
  const Hosts: seq<string> := ["youtube.com/watch?v=", "youtu.be/"]
  /** Length of a video id. */
  const IdLength: nat := 11

  /** `[\w-]`: an ASCII letter, digit, underscore or hyphen. */
  predicate IsIdChar(c: char) {
    ('A' <= c <= 'Z') || ('a' <= c <= 'z') || ('0' <= c <= '9') || c == '_' || c == '-'
  }

  /** Characters `.` does not match in a JavaScript expression without the `s` flag. */
  predicate IsLineTerminator(c: char) {
    c == '\n' || c == '\r' || c == '\U{2028}' || c == '\U{2029}'
  }

  /** `[\w-]{11}(&.*)?$`: eleven id characters, then the end or `&` and one line of anything. */
  predicate IdAndTail(rest: string) {
    && |rest| >= IdLength
    && (forall i :: 0 <= i < IdLength ==> IsIdChar(rest[i]))
    && (|rest| == IdLength
        || (rest[IdLength] == '&' && forall i :: IdLength < i < |rest| ==> !IsLineTerminator(rest[i])))
  }

  /** The prefix chosen by alternatives `i`, `j`, `k` of the three leading groups. */
  function Prefix(i: nat, j: nat, k: nat): string
    requires i < 3 && j < 2 && k < 2
  {
    Schemes[i] + WwwPrefixes[j] + Hosts[k]
  }

  predicate MatchesWith(s: string, i: nat, j: nat, k: nat)
    requires i < 3 && j < 2 && k < 2
  {
    Prefix(i, j, k) <= s && IdAndTail(s[|Prefix(i, j, k)|..])
  }

  /**
   * The expression matches `s`: some choice of the optional and alternative
   * groups fits. The shortest host and the id alone take 20 characters.
   */
  ghost predicate RegexMatches(s: string)
    ensures RegexMatches(s) ==> |s| >= |Hosts[1]| + IdLength
  {
    assert (exists i: nat, j: nat, k: nat :: i < 3 && j < 2 && k < 2 && MatchesWith(s, i, j, k))
      ==> |s| >= |Hosts[1]| + IdLength
    by {
      if exists i: nat, j: nat, k: nat :: i < 3 && j < 2 && k < 2 && MatchesWith(s, i, j, k) {
        var i: nat, j: nat, k: nat :| i < 3 && j < 2 && k < 2 && MatchesWith(s, i, j, k);
        assert |Hosts[k]| >= |Hosts[1]| by {
          if k == 0 { assert |Hosts[0]| == 20; }
        }
        assert |Prefix(i, j, k)| == |Schemes[i]| + |WwwPrefixes[j]| + |Hosts[k]|;
        assert |s[|Prefix(i, j, k)|..]| >= IdLength;
      }
    }
    exists i: nat, j: nat, k: nat :: i < 3 && j < 2 && k < 2 && MatchesWith(s, i, j, k)
  }

  /** `(https?://)?` consumed greedily: never longer than `s`. */
  function AfterScheme(s: string): (rest: string)
    ensures |rest| <= |s|
  {
    if "https://" <= s then s[8..] else if "http://" <= s then s[7..] else s
  }

  /** `(www\.)?` consumed greedily: never longer than `s`. */
  function AfterWww(s: string): (rest: string)
    ensures |rest| <= |s|
  {
    if "www." <= s then s[4..] else s
  }

  /** One of the two hosts and paths, or None; what follows the host is at least nine characters shorter. */
  function AfterHost(s: string): (rest: Option<string>)
    ensures rest.Some? ==> |rest.value| + |Hosts[1]| <= |s|
  {
    if "youtube.com/watch?v=" <= s then Some(s[20..])
    else if "youtu.be/" <= s then Some(s[9..])
    else None
  }

  /**
   * The link rule, checked from left to right. An accepted link ends in
   * the id and its tail, and is at least 20 characters long, so the
   * two-character minimum never decides for a link.
   */
  predicate IsYoutubeLink(s: string)
    ensures IsYoutubeLink(s) ==> |s| >= |Hosts[1]| + IdLength
  {
    match AfterHost(AfterWww(AfterScheme(s)))
    case None => false
    case Some(rest) => IdAndTail(rest)
  }

  lemma SchemeStripped(i: nat, rest: string)
    requires i < 3
    requires |rest| >= 1 && rest[0] != 'h'
    ensures AfterScheme(Schemes[i] + rest) == rest
  {
    if i == 0 {
      assert Schemes[i] + rest == rest;
      assert "http://"[0] != rest[0] && "https://"[0] != rest[0];
    } else if i == 1 {
      var t := "http://" + rest;
      assert Schemes[i] + rest == t;
      assert "https://"[4] != t[4];
      assert "http://" <= t;
      assert t[7..] == rest;
    } else {
      var t := "https://" + rest;
      assert Schemes[i] + rest == t;
      assert "https://" <= t;
      assert t[8..] == rest;
    }
  }

  lemma WwwStripped(j: nat, rest: string)
    requires j < 2
    requires |rest| >= 1 && rest[0] == 'y'
    ensures AfterWww(WwwPrefixes[j] + rest) == rest
  {
    if j == 0 {
      assert WwwPrefixes[j] + rest == rest;
      assert "www."[0] != rest[0];
    } else {
      var t := "www." + rest;
      assert WwwPrefixes[j] + rest == t;
      assert "www." <= t;
      assert t[4..] == rest;
    }
  }

  lemma HostStripped(k: nat, rest: string)
    requires k < 2
    ensures AfterHost(Hosts[k] + rest) == Some(rest)
  {
    if k == 0 {
      var t := "youtube.com/watch?v=" + rest;
      assert Hosts[k] + rest == t;
      assert "youtube.com/watch?v=" <= t;
      assert t[20..] == rest;
    } else {
      var t := "youtu.be/" + rest;
      assert Hosts[k] + rest == t;
      assert "youtube.com/watch?v="[5] != t[5];
      assert "youtu.be/" <= t;
      assert t[9..] == rest;
    }
  }

  /** Left-to-right scanning strips exactly the prefix any successful match uses. */
  lemma PrefixStripped(i: nat, j: nat, k: nat, rest: string)
    requires i < 3 && j < 2 && k < 2
    ensures AfterHost(AfterWww(AfterScheme(Prefix(i, j, k) + rest))) == Some(rest)
  {
    var hostAndRest := Hosts[k] + rest;
    assert hostAndRest[0] == Hosts[k][0] == 'y';
    var wwwAndRest := WwwPrefixes[j] + hostAndRest;
    assert wwwAndRest[0] == 'w' || wwwAndRest[0] == 'y' by {
      if j == 0 { assert wwwAndRest == hostAndRest; } else { assert wwwAndRest[0] == WwwPrefixes[j][0]; }
    }
    assert Prefix(i, j, k) + rest == Schemes[i] + wwwAndRest;
    SchemeStripped(i, wwwAndRest);
    WwwStripped(j, hostAndRest);
    HostStripped(k, rest);
  }

  /** The scheme the scan strips is one of the alternatives of `(https?://)?`. */
  lemma SchemeSplit(s: string) returns (i: nat)
    ensures i < 3 && s == Schemes[i] + AfterScheme(s)
  {
    if "https://" <= s {
      i := 2;
      assert Schemes[i] == s[..8];
    } else if "http://" <= s {
      i := 1;
      assert Schemes[i] == s[..7];
    } else {
      i := 0;
    }
  }

  /** The prefix the scan strips is one of the alternatives of `(www\.)?`. */
  lemma WwwSplit(s: string) returns (j: nat)
    ensures j < 2 && s == WwwPrefixes[j] + AfterWww(s)
  {
    if "www." <= s {
      j := 1;
      assert WwwPrefixes[j] == s[..4];
    } else {
      j := 0;
    }
  }

  /** A host the scan recognises is one of the two alternatives. */
  lemma HostSplit(s: string) returns (k: nat)
    requires AfterHost(s).Some?
    ensures k < 2 && s == Hosts[k] + AfterHost(s).value
  {
    if "youtube.com/watch?v=" <= s {
      k := 0;
      assert Hosts[k] == s[..20];
    } else {
      k := 1;
      assert Hosts[k] == s[..9];
    }
  }

  /** Whatever the scan accepts, the expression matches with the groups the scan chose. */
  lemma LinkMatchesRegex(s: string)
    requires IsYoutubeLink(s)
    ensures RegexMatches(s)
  {
    var i := SchemeSplit(s);
    var s1 := AfterScheme(s);
    var j := WwwSplit(s1);
    var s2 := AfterWww(s1);
    var k := HostSplit(s2);
    var rest := AfterHost(s2).value;
    assert IdAndTail(rest);
    SplitAtPrefix(s, Schemes[i], WwwPrefixes[j], Hosts[k], rest);
    assert Prefix(i, j, k) == Schemes[i] + WwwPrefixes[j] + Hosts[k];
    assert MatchesWith(s, i, j, k);
  }

  /** Cutting `a + b + c` off `a + (b + (c + rest))` leaves `rest`. */
  lemma SplitAtPrefix(s: string, a: string, b: string, c: string, rest: string)
    requires s == a + (b + (c + rest))
    ensures a + b + c <= s && s[|a + b + c|..] == rest
  {
    assert s == (a + b + c) + rest;
  }

  /** Whatever the expression matches, the scan accepts. */
  lemma RegexMatchIsLink(s: string)
    requires RegexMatches(s)
    ensures IsYoutubeLink(s)
  {
    var i: nat, j: nat, k: nat :| i < 3 && j < 2 && k < 2 && MatchesWith(s, i, j, k);
    var rest := s[|Prefix(i, j, k)|..];
    assert s == Prefix(i, j, k) + rest;
    PrefixStripped(i, j, k, rest);
  }

  /** The left-to-right check accepts exactly the strings the expression matches. */
  lemma YoutubeLinkMatchesRegex(s: string)
    ensures IsYoutubeLink(s) <==> RegexMatches(s)
  {
    if IsYoutubeLink(s) {
      LinkMatchesRegex(s);
    }
    if RegexMatches(s) {
      RegexMatchIsLink(s);
    }
  }

  /** A ten-character id is refused, whether or not `&...` follows. */
  lemma TenCharIdRejected(i: nat, j: nat, k: nat, id: string, tail: string)
    requires i < 3 && j < 2 && k < 2
    requires |id| == 10 && forall c :: 0 <= c < |id| ==> IsIdChar(id[c])
    requires tail == [] || tail[0] == '&'
    ensures !IsYoutubeLink(Prefix(i, j, k) + id + tail)
  {
    assert Prefix(i, j, k) + id + tail == Prefix(i, j, k) + (id + tail);
    PrefixStripped(i, j, k, id + tail);
    if |id + tail| >= IdLength {
      assert (id + tail)[10] == '&';
    }
  }

  /** An id of twelve or more id characters is refused: the twelfth is neither the end nor `&`. */
  lemma LongIdRejected(i: nat, j: nat, k: nat, id: string, tail: string)
    requires i < 3 && j < 2 && k < 2
    requires |id| == 12 && forall c :: 0 <= c < |id| ==> IsIdChar(id[c])
    ensures !IsYoutubeLink(Prefix(i, j, k) + id + tail)
  {
    assert Prefix(i, j, k) + id + tail == Prefix(i, j, k) + (id + tail);
    PrefixStripped(i, j, k, id + tail);
    assert (id + tail)[IdLength] == id[11];
  }

  /** The sample id is eleven id characters. */
  lemma SampleIdAccepted()
    ensures IdAndTail("dQw4w9WgXcQ")
    ensures IdAndTail("dQw4w9WgXcQ&t=42")
  {
    var id := "dQw4w9WgXcQ";
    forall c | 0 <= c < IdLength ensures IsIdChar(id[c]) {
      assert id[c] in {'d', 'Q', 'w', '4', '9', 'W', 'g', 'X', 'c'};
    }
    var tailed := "dQw4w9WgXcQ&t=42";
    assert tailed[..IdLength] == id;
    forall c | IdLength < c < |tailed| ensures !IsLineTerminator(tailed[c]) {
      assert tailed[c] in {'t', '=', '4', '2'};
    }
  }

  /** A full watch link is accepted. */
  lemma WatchLinkAccepted()
    ensures IsYoutubeLink("https://www.youtube.com/watch?v=dQw4w9WgXcQ")
  {
    var s := "https://www.youtube.com/watch?v=dQw4w9WgXcQ";
    var id := "dQw4w9WgXcQ";
    assert Prefix(2, 1, 0) == "https://www.youtube.com/watch?v=" by {
      assert Schemes[2] == "https://" && WwwPrefixes[1] == "www." && Hosts[0] == "youtube.com/watch?v=";
    }
    assert s == Prefix(2, 1, 0) + id;
    PrefixStripped(2, 1, 0, id);
    SampleIdAccepted();
  }

  /** A short link followed by a `&` tail is accepted. */
  lemma ShortLinkAccepted()
    ensures IsYoutubeLink("youtu.be/dQw4w9WgXcQ&t=42")
  {
    var s := "youtu.be/dQw4w9WgXcQ&t=42";
    assert AfterScheme(s) == s by {
      assert "http://"[0] != s[0] && "https://"[0] != s[0];
    }
    assert AfterWww(s) == s by {
      assert "www."[0] != s[0];
    }
    assert AfterHost(s) == Some(s[9..]) by {
      assert "youtube.com/watch?v="[5] != s[5];
    }
    assert s[9..] == "dQw4w9WgXcQ&t=42";
    SampleIdAccepted();
  }

  /** The mobile host is refused, with any scheme and anything after it. */
  lemma MobileHostRejected(i: nat, rest: string)
    requires i < 3
    ensures !IsYoutubeLink(Schemes[i] + "m.youtube.com/watch?v=" + rest)
  {
    var m := "m.youtube.com/watch?v=" + rest;
    assert Schemes[i] + "m.youtube.com/watch?v=" + rest == Schemes[i] + m;
    assert m[0] == 'm';
    SchemeStripped(i, m);
    assert "www."[0] != m[0];
    assert "youtube.com/watch?v="[0] != m[0];
    assert "youtu.be/"[0] != m[0];
  }

  /** After the host the path must be `/watch?v=`: `/shorts/` is refused, whatever surrounds it. */
  lemma ShortsPathRejected(i: nat, j: nat, rest: string)
    requires i < 3 && j < 2
    ensures !IsYoutubeLink(Schemes[i] + WwwPrefixes[j] + "youtube.com/shorts/" + rest)
  {
    var h := "youtube.com/shorts/" + rest;
    assert Schemes[i] + WwwPrefixes[j] + "youtube.com/shorts/" + rest == Schemes[i] + (WwwPrefixes[j] + h);
    OtherPathRejected(i, j, h);
  }

  /** A host part that starts like `youtube.com/` but is neither listed path is refused. */
  lemma OtherPathRejected(i: nat, j: nat, h: string)
    requires i < 3 && j < 2
    requires |h| >= 13 && h[..12] == "youtube.com/" && h[12] != 'w'
    ensures !IsYoutubeLink(Schemes[i] + (WwwPrefixes[j] + h))
  {
    assert h[0] == 'y' && h[5] == 'b';
    var w := WwwPrefixes[j] + h;
    assert w[0] == 'w' || w[0] == 'y' by {
      if j == 0 { assert w == h; } else { assert w[0] == WwwPrefixes[j][0]; }
    }
    SchemeStripped(i, w);
    WwwStripped(j, h);
    assert "youtube.com/watch?v="[12] != h[12];
    assert "youtu.be/"[5] != h[5];
  }

  /**
   * JavaScript's `length`: UTF-16 code units, one for a character up to
   * U+FFFF and two (a surrogate pair) for one above it.
   */
  function Utf16Length(s: string): (n: nat)
    ensures |s| <= n <= 2 * |s|
    ensures (forall i :: 0 <= i < |s| ==> s[i] as int <= 0xFFFF) ==> n == |s|
  {
    if s == [] then 0
    else
      assert (forall i :: 0 <= i < |s| ==> s[i] as int <= 0xFFFF)
        ==> (forall i :: 0 <= i < |s[1..]| ==> s[1..][i] as int <= 0xFFFF);
      (if s[0] as int > 0xFFFF then 2 else 1) + Utf16Length(s[1..])
  }

  /** Every issue zod reports for the field, in the order of the checks; `min(2)` counts UTF-16 units. */
  function ReferenceUrlIssues(s: string): (issues: seq<string>)
    ensures issues == [] <==> IsYoutubeLink(s)
    ensures Utf16Length(s) < MinLength ==> issues == [RequiredMessage, InvalidLinkMessage]
    ensures Utf16Length(s) >= MinLength && !IsYoutubeLink(s) ==> issues == [InvalidLinkMessage]
  {
    (if Utf16Length(s) < MinLength then [RequiredMessage] else [])
    + (if IsYoutubeLink(s) then [] else [InvalidLinkMessage])
  }

  /** The message shown under the field: the first issue, if any. */
  function FieldMessage(s: string): (message: Option<string>)
    ensures message == None <==> IsYoutubeLink(s)
    ensures Utf16Length(s) < MinLength ==> message == Some(RequiredMessage)
    ensures Utf16Length(s) >= MinLength && !IsYoutubeLink(s) ==> message == Some(InvalidLinkMessage)
  {
    var issues := ReferenceUrlIssues(s);
    if issues == [] then None else Some(issues[0])
  }

  /**
   * One character above U+FFFF (an emoji, say) is two UTF-16 units, so it
   * passes the minimum and is reported only as an invalid link; a single
   * character up to U+FFFF is reported as missing.
   */
  lemma SingleCharacterMessage(c: char)
    ensures c as int > 0xFFFF ==> ReferenceUrlIssues([c]) == [InvalidLinkMessage]
    ensures c as int <= 0xFFFF ==> ReferenceUrlIssues([c]) == [RequiredMessage, InvalidLinkMessage]
  {
    assert [c][1..] == [];
  }

  /**
   * `onSubmit`, reached only with a valid form: the vocal file, the
   * instrument file and the reference link, appended in that order.
   */
  method BuildUploadForm(voiceFile: nat, instrumentFile: nat, referenceUrl: string) returns (form: Forms.FormData)
    requires ReferenceUrlIssues(referenceUrl) == []
    ensures fresh(form)
    ensures form.entries == [
      Forms.Part("voice_file", Forms.FileValue(voiceFile)),
      Forms.Part("instrument_file", Forms.FileValue(instrumentFile)),
      Forms.Part("reference_url", Forms.Text(referenceUrl))]
  {
    var voice := Forms.Part("voice_file", Forms.FileValue(voiceFile));
    var instrument := Forms.Part("instrument_file", Forms.FileValue(instrumentFile));
    var reference := Forms.Part("reference_url", Forms.Text(referenceUrl));
    form := new Forms.FormData();
    form.Append(voice.name, voice.value);
    assert form.entries == [voice];
    form.Append(instrument.name, instrument.value);
    assert form.entries == [voice, instrument];
    form.Append(reference.name, reference.value);
  }
}
