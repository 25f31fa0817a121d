/**
 * The chat-style learner of the Python chat system: it reads a chat
 * export line by line, keeps what the named person wrote after the first
 * `": "` of each of their lines, and counts the emoticons (U+1F600 to
 * U+1F64F) in those messages.
 */
module PersonalityCloner {
  import opened Strings

  // ---------------------------------------------------------------------
  // Splitting

  /** `s.split(sep)` for a one-character separator: the pieces between separators. */
  function Split(s: string, sep: char): (r: seq<string>)
    ensures |r| >= 1
    ensures forall k :: 0 <= k < |r| ==> sep !in r[k]
    ensures Join(r, [sep]) == s
    decreases |s|
  {
    if sep !in s then [s]
    else
      var i := IndexOf(s, sep);
      var rest := Split(s[i + 1..], sep);
      assert s == s[..i] + [sep] + s[i + 1..];
      [s[..i]] + rest
  }

  /** The position of the first `c` in `s`. */
  function IndexOf(s: string, c: char): (i: nat)
    requires c in s
    ensures i < |s| && s[i] == c && c !in s[..i]
  {
    if s[0] == c then 0
    else
      assert s == [s[0]] + s[1..];
      1 + IndexOf(s[1..], c)
  }

  /** Dropping the first character moves every occurrence one place to the left. */
  lemma OccursAfterFirst(line: string, j: nat)
    requires 1 <= j && line != []
    ensures OccursAt(line, ": ", j) <==> OccursAt(line[1..], ": ", j - 1)
  {
    if j + 2 <= |line| {
      assert line[j..j + 2] == line[1..][j - 1..j + 1];
    }
  }

  /** The position of the first `": "` in a line that has one. */
  function FirstSeparator(line: string): (i: nat)
    requires Contains(line, ": ")
    ensures OccursAt(line, ": ", i)
    ensures forall j :: 0 <= j < i ==> !OccursAt(line, ": ", j)
    decreases |line|
  {
    if OccursAt(line, ": ", 0) then 0
    else
      assert Contains(line[1..], ": ") by {
        var j :| 0 <= j <= |line| - 2 && OccursAt(line, ": ", j);
        OccursAfterFirst(line, j);
      }
      var i := FirstSeparator(line[1..]);
      OccursAfterFirst(line, i + 1);
      assert forall j :: 1 <= j < i + 1 ==> !OccursAt(line, ": ", j) by {
        forall j | 1 <= j < i + 1
          ensures !OccursAt(line, ": ", j)
        {
          OccursAfterFirst(line, j);
        }
      }
      1 + i
  }

  /** `line.split(': ', 1)[1]`: everything after the first `": "`. */
  function AfterSeparator(line: string): (r: string)
    requires Contains(line, ": ")
    ensures |r| <= |line| - 2
  {
    line[FirstSeparator(line) + 2..]
  }

  /** The line is some text without `": "`, then the separator, then the phrase. */
  lemma AfterSeparatorSplits(line: string)
    requires Contains(line, ": ")
    ensures exists before :: line == before + ": " + AfterSeparator(line) && !Contains(before + ":", ": ")
  {
    var i := FirstSeparator(line);
    var before := line[..i];
    assert line == before + ": " + line[i + 2..];
    assert !Contains(before + ":", ": ") by {
      forall j | 0 <= j <= |before| - 1
        ensures !OccursAt(before + ":", ": ", j)
      {
        assert !OccursAt(line, ": ", j);
      }
    }
  }

  /** A line the learner keeps: it mentions the name and has a `": "`. */
  predicate Contributes(name: string, line: string) {
    Contains(line, name) && Contains(line, ": ")
  }

  /** The phrases the contributing lines give, in line order. */
  function PhrasesOf(name: string, lines: seq<string>): (r: seq<string>)
    ensures |r| <= |lines|
  {
    if lines == [] then []
    else
      var last := lines[|lines| - 1];
      PhrasesOf(name, lines[..|lines| - 1]) + (if Contributes(name, last) then [AfterSeparator(last)] else [])
  }

  /** The positions of the lines the learner keeps. */
  function Kept(name: string, lines: seq<string>): set<nat> {
    set k: nat | k < |lines| && Contributes(name, lines[k])
  }

  lemma KeptSnoc(name: string, lines: seq<string>)
    requires lines != []
    ensures var n := |lines| - 1;
      Kept(name, lines) == Kept(name, lines[..n]) + (if Contributes(name, lines[n]) then {n} else {})
  {
    var n := |lines| - 1;
    assert forall k :: 0 <= k < n ==> lines[..n][k] == lines[k];
  }

  lemma PhrasesOfPrefix(name: string, lines: seq<string>, i: nat)
    requires i < |lines|
    ensures PhrasesOf(name, lines[..i + 1])
      == PhrasesOf(name, lines[..i]) + (if Contributes(name, lines[i]) then [AfterSeparator(lines[i])] else [])
  {
    assert lines[..i + 1][..i] == lines[..i];
  }

  /** One phrase per kept line: the phrases number exactly the lines that mention the name and have a `": "`. */
  lemma {:induction false} PhrasesOfCount(name: string, lines: seq<string>)
    ensures |PhrasesOf(name, lines)| == |Kept(name, lines)|
  {
    if lines != [] {
      var n := |lines| - 1;
      PhrasesOfCount(name, lines[..n]);
      KeptSnoc(name, lines);
      assert n !in Kept(name, lines[..n]);
    }
  }

  /** Learning from two chats in a row gives the phrases of each, in order. */
  lemma {:induction false} PhrasesOfConcat(name: string, a: seq<string>, b: seq<string>)
    ensures PhrasesOf(name, a + b) == PhrasesOf(name, a) + PhrasesOf(name, b)
    decreases |b|
  {
    if b == [] {
      assert a + b == a;
    } else {
      var ab := a + b;
      var n := |b| - 1;
      assert ab[..|ab| - 1] == a + b[..n];
      assert ab[|ab| - 1] == b[n];
      PhrasesOfConcat(name, a, b[..n]);
    }
  }

  // ---------------------------------------------------------------------
  // Emoji counts

  /** The characters `[😀-🙏]` matches. */
  predicate IsEmoji(c: char) {
    '\U{1F600}' <= c <= '\U{1F64F}'
  }

  function CountOf(s: string, c: char): (n: nat)
    ensures n <= |s|
    ensures c !in s ==> n == 0
  {
    if s == [] then 0
    else CountOf(s[..|s| - 1], c) + (if s[|s| - 1] == c then 1 else 0)
  }

  /** `counts.get(c, 0)`. */
  function CountFor(counts: map<char, nat>, c: char): nat {
    if c in counts then counts[c] else 0
  }

  /** The counts after one more matched emoji `c`. */
  function Bump(counts: map<char, nat>, c: char): map<char, nat> {
    counts[c := CountFor(counts, c) + 1]
  }

  /** The counts after the emojis of one message, taken left to right. */
  function Tally(counts: map<char, nat>, msg: string): map<char, nat> {
    if msg == [] then counts
    else
      var c := msg[|msg| - 1];
      var before := Tally(counts, msg[..|msg| - 1]);
      if IsEmoji(c) then Bump(before, c) else before
  }

  /** The counts after the emojis of several messages, taken in order. */
  function TallyAll(counts: map<char, nat>, msgs: seq<string>): map<char, nat> {
    if msgs == [] then counts
    else Tally(TallyAll(counts, msgs[..|msgs| - 1]), msgs[|msgs| - 1])
  }

  /**
   * Each emoji's count grows by the number of times it occurs in the
   * message; every other entry, and every non-emoji, is untouched.
   */
  lemma {:induction false} TallyCounts(counts: map<char, nat>, msg: string, c: char)
    ensures CountFor(Tally(counts, msg), c) == CountFor(counts, c) + (if IsEmoji(c) then CountOf(msg, c) else 0)
    ensures c in Tally(counts, msg) <==> c in counts || (IsEmoji(c) && c in msg)
  {
    if msg != [] {
      var init := msg[..|msg| - 1];
      TallyCounts(counts, init, c);
      assert msg == init + [msg[|msg| - 1]];
      assert c in msg <==> c in init || c == msg[|msg| - 1];
    }
  }

  /** The total number of times `c` occurs in the messages. */
  function Occurrences(msgs: seq<string>, c: char): nat {
    if msgs == [] then 0 else Occurrences(msgs[..|msgs| - 1], c) + CountOf(msgs[|msgs| - 1], c)
  }

  lemma {:induction false} TallyAllCounts(counts: map<char, nat>, msgs: seq<string>, c: char)
    ensures CountFor(TallyAll(counts, msgs), c) == CountFor(counts, c) + (if IsEmoji(c) then Occurrences(msgs, c) else 0)
    ensures !IsEmoji(c) ==> (c in TallyAll(counts, msgs) <==> c in counts)
  {
    if msgs != [] {
      var init := msgs[..|msgs| - 1];
      TallyAllCounts(counts, init, c);
      TallyCounts(TallyAll(counts, init), msgs[|msgs| - 1], c);
    }
  }

  lemma TallyAllSnoc(counts: map<char, nat>, msgs: seq<string>, msg: string)
    ensures TallyAll(counts, msgs + [msg]) == Tally(TallyAll(counts, msgs), msg)
  {
    assert (msgs + [msg])[..|msgs|] == msgs;
  }

  // ---------------------------------------------------------------------
  // The learner

  class Cloner {
    const name: string
    var phrases: seq<string>
    var emojis: map<char, nat>
    var style: string
    var examples: map<string, string>

    constructor (name: string)
      ensures this.name == name
      ensures phrases == [] && emojis == map[] && style == "casual" && examples == map[]
    {
      this.name := name;
      phrases := [];
      emojis := map[];
      style := "casual";
      examples := map[];
    }

    /** The emoji loop of `learn_from_chat`: one increment per match of `[😀-🙏]`, left to right. */
    method CountEmojis(msg: string)
      modifies this`emojis
      ensures emojis == Tally(old(emojis), msg)
    {
      var j := 0;
      while j < |msg|
        invariant 0 <= j <= |msg|
        invariant emojis == Tally(old(emojis), msg[..j])
        decreases |msg| - j
      {
        assert msg[..j + 1][..j] == msg[..j];
        if IsEmoji(msg[j]) {
          emojis := emojis[msg[j] := CountFor(emojis, msg[j]) + 1];
        }
        j := j + 1;
      }
      assert msg[..|msg|] == msg;
    }

    /** `learn_from_chat`: appends the new phrases and counts their emojis. */
    method LearnFromChat(chatText: string)
      modifies this`phrases, this`emojis
      ensures phrases == old(phrases) + PhrasesOf(name, Split(chatText, '\n'))
      ensures emojis == TallyAll(old(emojis), PhrasesOf(name, Split(chatText, '\n')))
    {
      var lines := Split(chatText, '\n');
      ghost var learned: seq<string> := [];
      var i := 0;
      while i < |lines|
        invariant 0 <= i <= |lines|
        invariant learned == PhrasesOf(name, lines[..i])
        invariant phrases == old(phrases) + learned
        invariant emojis == TallyAll(old(emojis), learned)
        decreases |lines| - i
      {
        var line := lines[i];
        PhrasesOfPrefix(name, lines, i);
        if Contains(line, name) && Contains(line, ": ") {
          var msg := AfterSeparator(line);
          phrases := phrases + [msg];
          CountEmojis(msg);
          TallyAllSnoc(old(emojis), learned, msg);
          learned := learned + [msg];
        }
        i := i + 1;
      }
      assert lines[..|lines|] == lines;
    }
  }
}
