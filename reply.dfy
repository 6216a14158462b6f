/** Reply text (backend/ai_service.py): cleaning of generated text into a
    reply, and the template pools of the fallback reply generator. */
module Reply {
  import opened Text
  import Topic

  // ---------------------------------------------------------------------------
  // Cleaning generated text
  // ---------------------------------------------------------------------------

  /** Lines that echo the prompt's own fields and are dropped. */
  const MetadataPrefixes: seq<string> :=
    ["Customer Review:", "Rating:", "Sentiment:", "Topic:", "Summary:", "Restaurant Manager Response:"]

  /** Openings a reply may already start with, compared case-insensitively. */
  const Acknowledgements: seq<string> := ["thank you", "we appreciate", "we are sorry", "we apologize"]

  /** What is put in front of a reply that starts with no acknowledgement. */
  const DefaultOpening: string := "Thank you for your feedback! "

  /** Length above which a reply is cut at a word boundary. */
  const MaxReplyLength: nat := 300

  predicate HasMetadataPrefix(line: string) {
    exists p :: p in MetadataPrefixes && p <= line
  }

  predicate StartsWithAcknowledgement(reply: string) {
    exists a :: a in Acknowledgements && a <= Lower(reply)
  }

  predicate EndsWithPunctuation(reply: string) {
    reply != [] && reply[|reply| - 1] in {'.', '!', '?'}
  }

  /** A line is kept when, stripped, it is non-empty and echoes no metadata. */
  predicate KeepLine(line: string) {
    line != [] && !HasMetadataPrefix(line)
  }

  /** The stripped lines that are kept, in their original order. */
  function KeptLines(lines: seq<string>): (kept: seq<string>)
    ensures |kept| <= |lines|
    ensures forall j :: 0 <= j < |kept| ==> KeepLine(kept[j]) && Stripped(kept[j])
  {
    if lines == [] then []
    else
      var line := Strip(lines[|lines| - 1]);
      KeptLines(lines[..|lines| - 1]) + (if KeepLine(line) then [line] else [])
  }

  /** Filtering a concatenation filters each part: the filter looks at one
      line at a time. */
  lemma {:induction false} KeptLinesAppend(a: seq<string>, b: seq<string>)
    ensures KeptLines(a + b) == KeptLines(a) + KeptLines(b)
  {
    if b == [] {
      assert a + b == a;
    } else {
      var front := b[..|b| - 1];
      assert (a + b)[..|a + b| - 1] == a + front;
      assert (a + b)[|a + b| - 1] == b[|b| - 1];
      KeptLinesAppend(a, front);
    }
  }

  /** A single line is kept, stripped, exactly when it passes the test. */
  lemma KeptLinesSingle(line: string)
    ensures KeptLines([line]) == if KeepLine(Strip(line)) then [Strip(line)] else []
  {
    assert [line][..0] == [];
  }

  /** One more line of input adds at most that line, stripped, to the
      output. */
  lemma KeptLinesStep(lines: seq<string>, i: nat)
    requires i < |lines|
    ensures KeptLines(lines[..i + 1])
            == KeptLines(lines[..i]) + (if KeepLine(Strip(lines[i])) then [Strip(lines[i])] else [])
  {
    assert lines[..i + 1] == lines[..i] + [lines[i]];
    KeptLinesAppend(lines[..i], [lines[i]]);
    KeptLinesSingle(lines[i]);
  }

  /** The text the line filter works on: the prompt removed, ends stripped,
      split into lines. */
  function Lines(generated: string, prompt: string): (lines: seq<string>)
    ensures |lines| >= 1
    ensures forall j :: 0 <= j < |lines| ==> '\n' !in lines[j]
    ensures Join(lines, "\n") == Strip(RemoveAll(generated, prompt))
  {
    var text := Strip(RemoveAll(generated, prompt));
    JoinSplit(text, '\n');
    Split(text, '\n')
  }

  /** The joined lines with an opening: as they are when they already start
      with an acknowledgement, behind the default opening otherwise. */
  function WithOpening(joined: string): (w: string)
    ensures w != []
    ensures |joined| <= |w| && w[|w| - |joined|..] == joined
  {
    if StartsWithAcknowledgement(joined) then
      assert joined != [] by {
        var a :| a in Acknowledgements && a <= Lower(joined);
      }
      joined
    else
      DefaultOpening + joined
  }

  /** The cut of an over-long reply: everything before the last space of its
      head, closed with a period (the whole head when it has no space). */
  function CutAtWord(head: string): (r: string)
    ensures 1 <= |r| <= |head| + 1 && r[|r| - 1] == '.'
    ensures r[..|r| - 1] <= head
    ensures ' ' !in head ==> |r| == |head| + 1
    ensures ' ' in head ==> |r| <= |head| && head[|r| - 1] == ' ' && ' ' !in head[|r|..]
  {
    var kept := BeforeLast(head, ' ');
    assert (kept + ".")[..|kept|] == kept;
    kept + "."
  }

  /** The last three steps: the opening, the final punctuation, the cut. */
  function FormatReply(joined: string): (r: string)
    ensures 1 <= |r| <= MaxReplyLength + 1
    ensures EndsWithPunctuation(r)
    ensures !StartsWithAcknowledgement(joined) ==> DefaultOpening[..|DefaultOpening| - 1] <= r
    ensures StartsWithAcknowledgement(joined) && |joined| < MaxReplyLength ==> joined <= r && |r| <= |joined| + 1
  {
    var withOpening := WithOpening(joined);
    var punctuated := if EndsWithPunctuation(withOpening) then withOpening else withOpening + ".";
    if |punctuated| > MaxReplyLength then
      var head := punctuated[..MaxReplyLength];
      assert head == withOpening[..MaxReplyLength];
      assert !StartsWithAcknowledgement(joined) ==> DefaultOpening <= head;
      CutKeepsOpening(head);
      CutAtWord(head)
    else
      punctuated
  }

  /** A text with its opening that fits is kept whole, with a period added
      when it ends with no punctuation. */
  lemma FormatReplyFits(joined: string)
    ensures var w := WithOpening(joined);
      |w| < MaxReplyLength || (|w| == MaxReplyLength && EndsWithPunctuation(w)) ==>
        (EndsWithPunctuation(w) ==> FormatReply(joined) == w)
        && (!EndsWithPunctuation(w) ==> FormatReply(joined) == w + ".")
  {
  }

  /** A longer one is cut to its first 300 characters, up to the last space
      among them, and closed with a period. */
  lemma FormatReplyCut(joined: string)
    ensures var w := WithOpening(joined); var r := FormatReply(joined);
      |w| > MaxReplyLength || (|w| == MaxReplyLength && !EndsWithPunctuation(w)) ==>
        && r[|r| - 1] == '.' && r[..|r| - 1] <= w[..MaxReplyLength]
        && (' ' !in w[..MaxReplyLength] ==> |r| == MaxReplyLength + 1)
        && (' ' in w[..MaxReplyLength] ==> |r| <= MaxReplyLength && w[|r| - 1] == ' ' && ' ' !in w[|r|..MaxReplyLength])
  {
    var w := WithOpening(joined);
    if |w| > MaxReplyLength || (|w| == MaxReplyLength && !EndsWithPunctuation(w)) {
      var punctuated := if EndsWithPunctuation(w) then w else w + ".";
      var head := w[..MaxReplyLength];
      assert punctuated[..MaxReplyLength] == head;
      var r := FormatReply(joined);
      assert r == CutAtWord(head);
      if ' ' in head {
        assert head[|r|..] == w[|r|..MaxReplyLength];
      }
    }
  }

  /** Cutting at the last space keeps the default opening, whose last
      character is a space. */
  lemma CutKeepsOpening(head: string)
    requires |head| >= |DefaultOpening|
    ensures DefaultOpening <= head ==> DefaultOpening[..|DefaultOpening| - 1] <= CutAtWord(head)
  {
    if DefaultOpening <= head {
      BeforeLastKeeps(head, ' ', |DefaultOpening| - 1);
      assert CutAtWord(head) == BeforeLast(head, ' ') + ".";
    }
  }

  /** The cleaning as the source performs it: the prompt is removed, the
      lines are filtered in a loop, joined with spaces, and the reply is then
      given an opening, a final punctuation mark and a length cap. */
  method CleanGeneratedReply(generated: string, prompt: string) returns (reply: string)
    ensures generated == [] ==> reply == []
    ensures generated != [] ==> reply == FormatReply(Join(KeptLines(Lines(generated, prompt)), " "))
  {
    if generated == [] {
      return [];
    }
    reply := Strip(RemoveAll(generated, prompt));
    var lines := Split(reply, '\n');
    var cleanedLines := FilterLines(lines);
    reply := FinishReply(Join(cleanedLines, " "));
  }

  /** The line filter: each line is stripped, and kept when it is non-empty
      and echoes no metadata. */
  method FilterLines(lines: seq<string>) returns (cleanedLines: seq<string>)
    ensures cleanedLines == KeptLines(lines)
  {
    cleanedLines := [];
    for i := 0 to |lines|
      invariant cleanedLines == KeptLines(lines[..i])
    {
      var line := Strip(lines[i]);
      KeptLinesStep(lines, i);
      if KeepLine(line) {
        cleanedLines := cleanedLines + [line];
      }
    }
    assert lines[..|lines|] == lines;
  }

  /** The opening, punctuation and length steps, applied one after the other
      to the joined lines. */
  method FinishReply(joined: string) returns (reply: string)
    ensures reply == FormatReply(joined)
  {
    reply := joined;
    if !StartsWithAcknowledgement(reply) {
      reply := DefaultOpening + reply;
    }
    if reply != [] && !EndsWithPunctuation(reply) {
      reply := reply + ".";
    }
    if |reply| > MaxReplyLength {
      reply := BeforeLast(reply[..MaxReplyLength], ' ') + ".";
    }
  }

  /** When nothing is left after filtering, the reply is the default opening
    followed by a period, which lands after the opening's trailing space. */
  lemma NothingKeptGivesOpening()
    ensures FormatReply(Join([], " ")) == DefaultOpening + "."
  {
    var joined: string := Join([], " ");
    assert joined == [];
    assert !StartsWithAcknowledgement(joined) by {
      assert Lower(joined) == [];
    }
    assert DefaultOpening + joined == DefaultOpening;
    assert !EndsWithPunctuation(DefaultOpening);
  }

  // ---------------------------------------------------------------------------
  // Fallback replies
  // ---------------------------------------------------------------------------

  /** A template: the text before the topic and the text after it. */
  datatype Template = Template(before: string, after: string)

  function Fill(t: Template, topic: string): (s: string)
    ensures Contains(s, topic)
  {
    var s := t.before + topic + t.after;
    assert s[|t.before|..|t.before| + |topic|] == topic;
    ContainsSlice(s, |t.before|, |t.before| + |topic|);
    s
  }

  const PositiveHigh: seq<Template> := [
    Template("Thank you for your wonderful feedback! We're thrilled that you enjoyed our ", " and look forward to serving you again!"),
    Template("We're delighted to hear about your positive experience with our ", "! Thank you for taking the time to share your feedback."),
    Template("Thank you for your amazing review! We're so happy that you loved our ", " and we can't wait to welcome you back!"),
    Template("We truly appreciate your kind words about our ", "! Thank you for choosing us and we look forward to serving you again soon!")
  ]

  const PositiveLow: seq<Template> := [
    Template("Thank you for your positive feedback about our ", "! We appreciate your support and hope to see you again soon!"),
    Template("We're glad you had a good experience with our ", "! Thank you for sharing your thoughts with us."),
    Template("Thank you for your kind words about our ", "! We value your feedback and look forward to serving you again.")
  ]

  const NegativeLow: seq<Template> := [
    Template("Thank you for bringing this to our attention. We sincerely apologize for not meeting your expectations with our ", ". Please contact us directly so we can address your concerns."),
    Template("We're sorry to hear about your disappointing experience with our ", ". We take all feedback seriously and would like to make this right. Please reach out to us directly."),
    Template("Thank you for your honest feedback about our ", ". We apologize for falling short of your expectations and would appreciate the opportunity to discuss this with you directly."),
    Template("We're disappointed to hear about your experience with our ", ". Your feedback is important to us, and we'd like to address your concerns personally. Please contact us.")
  ]

  const NegativeHigh: seq<Template> := [
    Template("Thank you for your feedback about our ", ". We understand your concerns and would like to discuss this with you directly to make things right."),
    Template("We appreciate you sharing your experience with our ", ". We'd like to address your concerns and ensure you have a better experience next time.")
  ]

  const Neutral: seq<Template> := [
    Template("Thank you for your feedback about our ", "! We appreciate you taking the time to share your experience and will use your comments to continue improving our service."),
    Template("We value your input about our ", "! Thank you for sharing your experience with us, and we'll use your feedback to enhance our service."),
    Template("Thank you for taking the time to review our ", "! We appreciate your feedback and will continue working to provide the best possible experience."),
    Template("We're grateful for your honest feedback about our ", "! Your input helps us improve, and we appreciate you sharing your experience with us.")
  ]

  /** The templates chosen by sentiment label and rating. A label other than
      "positive" or "negative" takes the neutral pool. */
  function Templates(sentiment: string, rating: int): (pool: seq<Template>)
    ensures sentiment == "positive" && rating >= 4 ==> |pool| == 4
    ensures sentiment == "positive" && rating < 4 ==> |pool| == 3
    ensures sentiment == "negative" && rating <= 2 ==> |pool| == 4
    ensures sentiment == "negative" && rating > 2 ==> |pool| == 2
    ensures sentiment != "positive" && sentiment != "negative" ==> pool == Neutral && |pool| == 4
  {
    if sentiment == "positive" then
      if rating >= 4 then PositiveHigh else PositiveLow
    else if sentiment == "negative" then
      if rating <= 2 then NegativeLow else NegativeHigh
    else Neutral
  }

  /** The candidate replies, each mentioning the topic. */
  function ReplyPool(sentiment: string, rating: int, topic: string): (pool: seq<string>)
    ensures |pool| == |Templates(sentiment, rating)|
    ensures forall i :: 0 <= i < |pool| ==> Contains(pool[i], topic)
  {
    var ts := Templates(sentiment, rating);
    seq(|ts|, i requires 0 <= i < |ts| => Fill(ts[i], topic))
  }

  /** The fallback reply: the topic is extracted from the review text, and
      any reply of the pool may be picked (the source picks at random). */
  method GenerateFallbackReply(reviewText: string, rating: int, sentiment: string) returns (reply: string)
    ensures reply in ReplyPool(sentiment, rating, Topic.PickTopic(reviewText))
    ensures Contains(reply, Topic.PickTopic(reviewText))
  {
    var topic := Topic.ExtractTopicFallback(reviewText);
    var responses := ReplyPool(sentiment, rating, topic);
    assert responses[0] in responses;
    reply :| reply in responses;
  }
}
