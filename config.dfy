/** Settings of the service (backend/config.py): the values the handlers
    read, the comma-list validators and the log-level validator. */
module Config {
  import opened Text

  /** The settings the request handlers consult. Numeric settings come from the
      environment without validation, so they are plain integers here. */
  datatype Settings = Settings(
    apiKey: string,
    apiVersion: string,
    aiEnabled: bool,
    enableAnalytics: bool,
    enableSearch: bool,
    enableAiReplies: bool,
    enableBatchProcessing: bool,
    defaultPageSize: int,
    maxPageSize: int,
    searchMaxResults: int)

  /** The declared defaults. */
  const Defaults: Settings := Settings(
    apiKey := "demo-key-123",
    apiVersion := "1.0.0",
    aiEnabled := true,
    enableAnalytics := true,
    enableSearch := true,
    enableAiReplies := true,
    enableBatchProcessing := true,
    defaultPageSize := 10,
    maxPageSize := 100,
    searchMaxResults := 20)

  /** Bounds the request parameters are validated against by the reviews and
      search endpoints (literal in the endpoint declarations, not settings). */
  const MinPageSize: int := 1
  const MaxPageSize: int := 100
  const MinResults: int := 1
  const MaxResults: int := 20

  /** The defaults are values the endpoints themselves would accept. */
  lemma DefaultsWithinBounds()
    ensures MinPageSize <= Defaults.defaultPageSize <= MaxPageSize
    ensures MinResults <= Defaults.searchMaxResults <= MaxResults
    ensures Defaults.defaultPageSize <= Defaults.maxPageSize
  {
  }

  // ---------------------------------------------------------------------------
  // List-valued settings (allowed origins, methods and headers)
  // ---------------------------------------------------------------------------

  /** What a `pre=True` validator receives: raw text from the environment,
      or a value that is already a list (the declared default). */
  datatype RawSetting = Text(text: string) | List(items: seq<string>)

  /** The validator shared by `allowed_origins`, `allowed_methods` and
      `allowed_headers`: text is split on ',' and every piece is stripped; a
      value that is not text is passed through. */
  function ParseCommaList(v: RawSetting): (r: RawSetting)
    ensures r.List?
    ensures v.List? ==> r == v
    ensures v.Text? ==> |r.items| == CountChar(v.text, ',') + 1
    ensures v.Text? ==> forall i :: 0 <= i < |r.items| ==>
              Stripped(r.items[i]) && ',' !in r.items[i]
              && TrimmedFrom(Split(v.text, ',')[i], r.items[i])
  {
    match v
    case Text(text) =>
      var pieces := Split(text, ',');
      List(seq(|pieces|, i requires 0 <= i < |pieces| => Strip(pieces[i])))
    case List(_) => v
  }

  /** A piece with no whitespace and no comma survives the parser as it is:
      joining such items with ',' and parsing gives them back. */
  lemma {:induction false} ParseJoinedList(items: seq<string>)
    requires |items| >= 1
    requires forall i :: 0 <= i < |items| ==> ',' !in items[i] && NoSpace(items[i])
    ensures ParseCommaList(Text(Join(items, ","))) == List(items)
  {
    SplitJoin(items, ',');
    ParseSpaceFreePieces(Join(items, ","));
  }

  /** Text whose pieces hold no whitespace parses to those very pieces. */
  lemma ParseSpaceFreePieces(text: string)
    requires forall i :: 0 <= i < |Split(text, ',')| ==> NoSpace(Split(text, ',')[i])
    ensures ParseCommaList(Text(text)) == List(Split(text, ','))
  {
    var pieces := Split(text, ',');
    forall i | 0 <= i < |pieces| ensures Strip(pieces[i]) == pieces[i] {
      StripNoSpace(pieces[i]);
    }
    var parsed := seq(|pieces|, i requires 0 <= i < |pieces| => Strip(pieces[i]));
    assert parsed == pieces;
  }

  predicate NoSpace(s: string) {
    forall k :: 0 <= k < |s| ==> !IsSpace(s[k])
  }

  lemma StripNoSpace(s: string)
    requires NoSpace(s)
    ensures Strip(s) == s
  {
    var r := Strip(s);
    assert TrimmedFrom(s, r);
    var i :| TrimmedAt(s, r, i);
    if s != [] {
      assert !IsSpace(s[0]) && !IsSpace(s[|s| - 1]);
    }
    assert i == 0 && i + |r| == |s|;
  }

  /** Joining separator-free pieces on a character and splitting on it again
      gives back the pieces. */
  lemma {:induction false} SplitJoin(items: seq<string>, sep: char)
    requires |items| >= 1
    requires forall i :: 0 <= i < |items| ==> sep !in items[i]
    ensures Split(Join(items, [sep]), sep) == items
  {
    if |items| == 1 {
      SplitNoSep(items[0], sep);
    } else {
      SplitJoin(items[1..], sep);
      var tail := Join(items[1..], [sep]);
      SplitAppend(items[0], sep, tail);
      assert [items[0]] + items[1..] == items;
    }
  }

  lemma {:induction false} SplitNoSep(s: string, sep: char)
    requires sep !in s
    ensures Split(s, sep) == [s]
  {
    if s != [] {
      SplitNoSep(s[1..], sep);
      assert [s[0]] + s[1..] == s;
    }
  }

  lemma {:induction false} SplitAppend(a: string, sep: char, b: string)
    requires sep !in a
    ensures Split(a + [sep] + b, sep) == [a] + Split(b, sep)
  {
    if a == [] {
      assert a + [sep] + b == [sep] + b;
      assert ([sep] + b)[1..] == b;
    } else {
      var s := a + [sep] + b;
      assert s[1..] == a[1..] + [sep] + b;
      SplitAppend(a[1..], sep, b);
      assert [a[0]] + a[1..] == a;
    }
  }

  // ---------------------------------------------------------------------------
  // Log level
  // ---------------------------------------------------------------------------

  const ValidLevels: seq<string> := ["DEBUG", "INFO", "WARNING", "ERROR", "CRITICAL"]

  /** The log-level validator: a level is accepted in any letter case and
      stored upper-cased; anything else becomes "INFO". */
  function ValidateLogLevel(v: string): (r: string)
    ensures r in ValidLevels
    ensures r == Upper(v) || (r == "INFO" && Upper(v) !in ValidLevels)
  {
    if Upper(v) in ValidLevels then Upper(v) else "INFO"
  }

  lemma UpperOfUppercase(s: string)
    requires forall k :: 0 <= k < |s| ==> !('a' <= s[k] <= 'z')
    ensures Upper(s) == s
  {
  }

  /** Validating an already validated level changes nothing. */
  lemma LogLevelIdempotent(v: string)
    ensures ValidateLogLevel(ValidateLogLevel(v)) == ValidateLogLevel(v)
  {
    var r := ValidateLogLevel(v);
    UpperOfUppercase(r);
  }

  /** Exactly the case variants of the five level names are kept. */
  lemma LogLevelKeepsValid(v: string)
    ensures Upper(v) in ValidLevels <==> ValidateLogLevel(v) == Upper(v)
  {
    if ValidateLogLevel(v) == Upper(v) {
      assert Upper(v) in ValidLevels;
    }
  }
}
