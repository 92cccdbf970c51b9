/**
 * The pure parts of the page's speech-recognition callbacks: splitting a
 * result list into final and interim text, the text shown while listening,
 * the wake-word test and the blank-transcript test.
 */
module SpeechResults {

  /** `results[i][0].transcript` and `results[i].isFinal`. */
  datatype RecognitionResult = RecognitionResult(transcript: string, isFinal: bool)

  /** The results a handler visits: from `resultIndex` to the end. */
  function Visited(results: seq<RecognitionResult>, resultIndex: nat): seq<RecognitionResult> {
    if resultIndex <= |results| then results[resultIndex..] else []
  }

  /** The transcripts of the results whose finality is `final`, concatenated in order. */
  function Joined(rs: seq<RecognitionResult>, final: bool): string {
    if rs == [] then ""
    else (if rs[0].isFinal == final then rs[0].transcript else "") + Joined(rs[1..], final)
  }

  lemma {:induction false} JoinedAppend(a: seq<RecognitionResult>, b: seq<RecognitionResult>, final: bool)
    ensures Joined(a + b, final) == Joined(a, final) + Joined(b, final)
    decreases |a|
  {
    if a == [] {
      assert a + b == b;
    } else {
      assert (a + b)[1..] == a[1..] + b;
      JoinedAppend(a[1..], b, final);
    }
  }

  /** A single result lands in the accumulator of its own finality and not in the other. */
  lemma JoinedSingle(r: RecognitionResult)
    ensures Joined([r], r.isFinal) == r.transcript
    ensures Joined([r], !r.isFinal) == ""
  {
  }

  /** Every transcript of `rs`, concatenated in order. */
  function Transcripts(rs: seq<RecognitionResult>): string {
    if rs == [] then "" else rs[0].transcript + Transcripts(rs[1..])
  }

  /** Between them the two accumulators hold every visited character exactly once. */
  lemma {:induction false} JoinedPartition(rs: seq<RecognitionResult>)
    ensures multiset(Joined(rs, true)) + multiset(Joined(rs, false)) == multiset(Transcripts(rs))
    ensures |Joined(rs, true)| + |Joined(rs, false)| == |Transcripts(rs)|
  {
    if rs != [] {
      JoinedPartition(rs[1..]);
      var t := rs[0].transcript;
      if rs[0].isFinal {
        assert Joined(rs, true) == t + Joined(rs[1..], true);
        assert Joined(rs, false) == "" + Joined(rs[1..], false);
      } else {
        assert Joined(rs, true) == "" + Joined(rs[1..], true);
        assert Joined(rs, false) == t + Joined(rs[1..], false);
      }
    }
  }

  /** The `onresult` loop of push-to-talk: accumulate final and interim text. */
  method SplitResults(results: seq<RecognitionResult>, resultIndex: nat)
    returns (finalText: string, interimText: string)
    ensures finalText == Joined(Visited(results, resultIndex), true)
    ensures interimText == Joined(Visited(results, resultIndex), false)
  {
    finalText, interimText := "", "";
    var i := resultIndex;
    while i < |results|
      invariant resultIndex <= i
      invariant i <= |results| ==> finalText == Joined(results[resultIndex..i], true)
      invariant i <= |results| ==> interimText == Joined(results[resultIndex..i], false)
      invariant i > |results| ==> i == resultIndex && finalText == "" && interimText == ""
      decreases |results| - i
    {
      var r := results[i];
      if r.isFinal {
        finalText := finalText + r.transcript;
      } else {
        interimText := interimText + r.transcript;
      }
      assert results[resultIndex..i + 1] == results[resultIndex..i] + [r];
      JoinedAppend(results[resultIndex..i], [r], true);
      JoinedAppend(results[resultIndex..i], [r], false);
      JoinedSingle(r);
      i := i + 1;
    }
    if resultIndex <= |results| {
      assert results[resultIndex..i] == results[resultIndex..];
    }
  }

  /** `interimTranscript || finalTranscript`: the text shown while listening. */
  function Displayed(finalText: string, interimText: string): (d: string)
    ensures interimText != "" ==> d == interimText
    ensures interimText == "" ==> d == finalText
    ensures d == "" <==> finalText == "" && interimText == ""
  {
    if interimText != "" then interimText else finalText
  }

  /** `w` occurs in `s` starting at position `i`. */
  predicate OccursAt(s: string, w: string, i: nat) {
    i + |w| <= |s| && s[i..i + |w|] == w
  }

  lemma OccursAtTail(s: string, w: string, i: nat)
    requires s != []
    ensures OccursAt(s[1..], w, i) <==> OccursAt(s, w, i + 1)
  {
  }

  /** `s.includes(w)` */
  function Includes(s: string, w: string): bool
    decreases |s|
  {
    if |s| < |w| then false
    else if s[..|w|] == w then true
    else Includes(s[1..], w)
  }

  /** `includes` holds exactly when the word occurs at some position. */
  lemma {:induction false} IncludesOccurs(s: string, w: string)
    ensures Includes(s, w) <==> exists i: nat :: OccursAt(s, w, i)
    decreases |s|
  {
    if |s| < |w| {
    } else if s[..|w|] == w {
      assert OccursAt(s, w, 0);
    } else {
      IncludesOccurs(s[1..], w);
      if Includes(s, w) {
        var i: nat :| OccursAt(s[1..], w, i);
        OccursAtTail(s, w, i);
      }
      if exists i: nat :: OccursAt(s, w, i) {
        var i: nat :| OccursAt(s, w, i);
        assert i != 0;
        OccursAtTail(s, w, i - 1);
      }
    }
  }

  function LowerChar(c: char): char {
    if 'A' <= c <= 'Z' then (c as int + 32) as char else c
  }

  /** `toLowerCase()` on the ASCII letters. */
  function ToLower(s: string): string {
    seq(|s|, i requires 0 <= i < |s| => LowerChar(s[i]))
  }

  const WakeWords: seq<string> := ["你好", "哈囉", "嗨"]

  /** A wake word has no letter that lower-casing changes or produces. */
  predicate Caseless(w: string) {
    forall k :: 0 <= k < |w| ==> !('A' <= w[k] <= 'Z') && !('a' <= w[k] <= 'z')
  }

  /** Lower-casing neither creates nor destroys an occurrence of a caseless word. */
  lemma LowerKeepsOccurrence(s: string, w: string, i: nat)
    requires Caseless(w)
    ensures OccursAt(ToLower(s), w, i) <==> OccursAt(s, w, i)
  {
  }

  lemma {:induction false} LowerKeepsWord(s: string, w: string)
    requires Caseless(w)
    ensures Includes(ToLower(s), w) <==> Includes(s, w)
  {
    IncludesOccurs(ToLower(s), w);
    IncludesOccurs(s, w);
    if Includes(ToLower(s), w) {
      var i: nat :| OccursAt(ToLower(s), w, i);
      LowerKeepsOccurrence(s, w, i);
    }
    if Includes(s, w) {
      var i: nat :| OccursAt(s, w, i);
      LowerKeepsOccurrence(s, w, i);
    }
  }

  /** The wake-word test: the lower-cased transcript contains one of the wake words. */
  predicate IsWakeUtterance(transcript: string) {
    var t := ToLower(transcript);
    Includes(t, WakeWords[0]) || Includes(t, WakeWords[1]) || Includes(t, WakeWords[2])
  }

  /**
   * Because the wake words are Chinese, lower-casing does not matter: the
   * test holds exactly when the transcript itself contains a wake word.
   */
  lemma WakeTestIgnoresCase(transcript: string)
    ensures IsWakeUtterance(transcript) <==>
      Includes(transcript, WakeWords[0]) || Includes(transcript, WakeWords[1]) || Includes(transcript, WakeWords[2])
  {
    assert forall w :: w in WakeWords ==> Caseless(w);
    LowerKeepsWord(transcript, WakeWords[0]);
    LowerKeepsWord(transcript, WakeWords[1]);
    LowerKeepsWord(transcript, WakeWords[2]);
  }

  /** A wake word anywhere in an utterance wakes the robot. */
  lemma WakeWordAnywhere(before: string, w: string, after: string)
    requires w in WakeWords
    ensures IsWakeUtterance(before + w + after)
  {
    var s := before + w + after;
    assert OccursAt(s, w, |before|);
    IncludesOccurs(s, w);
    WakeTestIgnoresCase(s);
  }

  /** The characters `String.prototype.trim` removes: white space and line terminators. */
  predicate IsTrimmed(c: char) {
    c in {' ', '\t', '\n', '\r', '\U{000B}', '\U{000C}', '\U{00A0}', '\U{1680}',
          '\U{2028}', '\U{2029}', '\U{202F}', '\U{205F}', '\U{3000}', '\U{FEFF}'}
    || '\U{2000}' <= c <= '\U{200A}'
  }

  /** `s.trimStart()`: drop the leading white space. */
  function TrimStart(s: string): (t: string)
    ensures |t| <= |s| && t == s[|s| - |t|..]
    ensures t == [] || !IsTrimmed(t[0])
    ensures forall k :: 0 <= k < |s| - |t| ==> IsTrimmed(s[k])
  {
    if s == [] || !IsTrimmed(s[0]) then s else TrimStart(s[1..])
  }

  /** `s.trimEnd()`: drop the trailing white space. */
  function TrimEnd(s: string): (t: string)
    ensures |t| <= |s| && t == s[..|t|]
    ensures t == [] || !IsTrimmed(t[|t| - 1])
    ensures forall k :: |t| <= k < |s| ==> IsTrimmed(s[k])
  {
    if s == [] || !IsTrimmed(s[|s| - 1]) then s else TrimEnd(s[..|s| - 1])
  }

  /** `s.trim()`: neither end of the result is white space. */
  function Trim(s: string): (t: string)
    ensures t == [] || (!IsTrimmed(t[0]) && !IsTrimmed(t[|t| - 1]))
  {
    TrimEnd(TrimStart(s))
  }

  /** `!s.trim()`: every character of the utterance is white space. */
  predicate Blank(s: string)
    decreases |s|
  {
    s == [] || (IsTrimmed(s[0]) && Blank(s[1..]))
  }

  /** A blank utterance is one that holds nothing but white space. */
  lemma {:induction false} BlankIsWhiteSpace(s: string)
    ensures Blank(s) <==> forall k :: 0 <= k < |s| ==> IsTrimmed(s[k])
    decreases |s|
  {
    if s != [] {
      BlankIsWhiteSpace(s[1..]);
      assert forall k :: 1 <= k < |s| ==> s[k] == s[1..][k - 1];
    }
  }

  /** The blank test is the source's `!s.trim()`: trimming leaves nothing exactly for blank text. */
  lemma BlankIsEmptyTrim(s: string)
    ensures Blank(s) <==> Trim(s) == []
  {
    BlankIsWhiteSpace(s);
    var t := TrimStart(s);
    if t != [] {
      assert t[0] == s[|s| - |t|];
    }
  }
}
