/**
  `generate_znl_text` (main.py): builds the body of one post from the content
  record. The random draws are parameters (`Randomness`); a missing key and
  `random.choice` on an empty list are the two ways the expression can raise,
  and the function then returns the empty string.
 */
module ZnlText {
  import opened Wrappers
  import opened PyText

  /** Upper bound of `random.randint(0, 888888)`. */
  const MAX_RAND_NUM: nat := 888888

  /** The token appended to the exclamation: a space and the name 伯远. */
  const NAME_SUFFIX := " \U{4F2F}\U{8FDC}"

  /** The fourth line: the mention "@INTO1-伯远 " (with its trailing space). */
  const MENTION := "@INTO1-\U{4F2F}\U{8FDC} "

  /** What every successful post ends with. */
  const POST_SUFFIX := "\n" + MENTION + "\n"

  /** The decoded content.json object; a key that is absent is `None`. */
  datatype Content = Content(
    withRandNum: Option<bool>,
    tags1: Option<string>,
    tags2: Option<string>,
    znlText: Option<seq<string>>,
    exText: Option<seq<string>>,
    emoji: Option<seq<string>>)

  /**
    The values the random module returns during one call, in evaluation
    order: the `randint` (drawn only when withRandNum holds) and the indices
    picked by the seven `random.choice` calls.
   */
  datatype Randomness = Randomness(
    randNum: nat,
    tagEmoji: nat,
    body: nat,
    bodyEmoji1: nat,
    bodyEmoji2: nat,
    exclamation: nat,
    exEmoji1: nat,
    exEmoji2: nat)

  /** The exceptions the expression can raise. */
  datatype PyError = KeyError(key: string) | IndexError

  /** `random.choice` returns an element of a non-empty list, by index. */
  predicate ChoosesFrom(i: nat, xs: Option<seq<string>>) {
    xs.None? || |xs.value| == 0 || i < |xs.value|
  }

  /** The draws the random module can produce for this content. */
  predicate Admissible(c: Content, rng: Randomness) {
    && rng.randNum <= MAX_RAND_NUM
    && ChoosesFrom(rng.tagEmoji, c.emoji)
    && ChoosesFrom(rng.body, c.znlText)
    && ChoosesFrom(rng.bodyEmoji1, c.emoji)
    && ChoosesFrom(rng.bodyEmoji2, c.emoji)
    && ChoosesFrom(rng.exclamation, c.exText)
    && ChoosesFrom(rng.exEmoji1, c.emoji)
    && ChoosesFrom(rng.exEmoji2, c.emoji)
  }

  /** All six keys are present and the three lists are non-empty. */
  predicate WellFormed(c: Content) {
    && c.withRandNum.Some? && c.tags1.Some? && c.tags2.Some?
    && c.znlText.Some? && c.exText.Some? && c.emoji.Some?
    && |c.znlText.value| > 0 && |c.exText.value| > 0 && |c.emoji.value| > 0
  }

  /** The key names `content[...]` subscripts with, when it is absent. */
  predicate MissingKey(c: Content, key: string) {
    || (key == "withRandNum" && c.withRandNum.None?)
    || (key == "tags1" && c.tags1.None?)
    || (key == "tags2" && c.tags2.None?)
    || (key == "znlText" && c.znlText.None?)
    || (key == "exText" && c.exText.None?)
    || (key == "emoji" && c.emoji.None?)
  }

  /** `content[key]` */
  function Lookup<T>(field: Option<T>, key: string): (r: Result<T, PyError>)
    ensures r.Success? <==> field.Some?
    ensures r.Success? ==> r.value == field.value
    ensures r.Failure? ==> r.error == KeyError(key)
  {
    match field
    case Some(v) => Success(v)
    case None => Failure(KeyError(key))
  }

  /** `random.choice(xs)` when the random module picks index `i`. */
  function Choice(xs: seq<string>, i: nat): (r: Result<string, PyError>)
    requires xs == [] || i < |xs|
    ensures r.Success? <==> xs != []
    ensures r.Success? ==> r.value in xs
    ensures r.Failure? ==> r.error == IndexError
  {
    if xs == [] then Failure(IndexError) else Success(xs[i])
  }

  /**
    The body of the `try`: the operands are evaluated left to right, so the
    first missing key or empty list met in that order is the exception raised.
   */
  function Evaluate(c: Content, rng: Randomness): (r: Result<string, PyError>)
    requires Admissible(c, rng)
    ensures r.Success? <==> WellFormed(c)
    ensures r.Success? ==> EndsWith(r.value, POST_SUFFIX)
    ensures r.Failure? && r.error.KeyError? ==> MissingKey(c, r.error.key)
    ensures r.Failure? && r.error.IndexError? ==>
              c.emoji == Some([]) || c.znlText == Some([]) || c.exText == Some([])
  {
    var withRandNum :- Lookup(c.withRandNum, "withRandNum");
    var randomNum := if withRandNum then Str(rng.randNum) else "";
    var tags1 :- Lookup(c.tags1, "tags1");
    // content['emoji'] is looked up again before each draw; it is the same list each time
    var emoji :- Lookup(c.emoji, "emoji");
    var tagEmoji :- Choice(emoji, rng.tagEmoji);
    var tags2 :- Lookup(c.tags2, "tags2");
    var znlText :- Lookup(c.znlText, "znlText");
    var body :- Choice(znlText, rng.body);
    // emoji is known to be non-empty from here on, so its later draws cannot raise
    var bodyEmoji1 := Choice(emoji, rng.bodyEmoji1).value;
    var bodyEmoji2 := Choice(emoji, rng.bodyEmoji2).value;
    var exText :- Lookup(c.exText, "exText");
    var exclamation :- Choice(exText, rng.exclamation);
    var exEmoji1 := Choice(emoji, rng.exEmoji1).value;
    var exEmoji2 := Choice(emoji, rng.exEmoji2).value;
    var text := tags1 + tagEmoji + tags2 + "\n" + body + bodyEmoji1 + bodyEmoji2 + "\n"
                + exclamation + NAME_SUFFIX + exEmoji1 + exEmoji2 + " " + randomNum
                + POST_SUFFIX;
    assert text[|text| - |POST_SUFFIX|..] == POST_SUFFIX;
    Success(text)
  }

  /**
    `generate_znl_text(content)`: the post text, or "" when the body raised
    (the exception is only logged).
   */
  function GenerateZnlText(c: Content, rng: Randomness): (text: string)
    requires Admissible(c, rng)
    ensures text == "" <==> !WellFormed(c)
    ensures text != "" ==> EndsWith(text, POST_SUFFIX)
  {
    match Evaluate(c, rng)
    case Success(t) => t
    case Failure(_) => ""
  }

  // ---------------------------------------------------------------------------
  // The layout of a post, independently of how the pieces are drawn

  /** The pieces one post is built from, besides the two fixed tags. */
  datatype Draw = Draw(
    tagEmoji: string,
    body: string,
    bodyEmoji1: string,
    bodyEmoji2: string,
    exclamation: string,
    exEmoji1: string,
    exEmoji2: string,
    numberSlot: string)

  function Line1(tags1: string, tags2: string, d: Draw): string {
    tags1 + d.tagEmoji + tags2
  }

  function Line2(d: Draw): string {
    d.body + d.bodyEmoji1 + d.bodyEmoji2
  }

  function Line3(d: Draw): string {
    d.exclamation + NAME_SUFFIX + d.exEmoji1 + d.exEmoji2 + " " + d.numberSlot
  }

  /** Four lines, each ended by a newline; the last is the mention. */
  function Layout(tags1: string, tags2: string, d: Draw): string {
    Line1(tags1, tags2, d) + "\n" + Line2(d) + "\n" + Line3(d) + "\n" + MENTION + "\n"
  }

  /**
    A draw the content allows: every emoji from `emoji`, the body from
    `znlText`, the exclamation from `exText`, and a number slot that is the
    decimal text of some 0..888888 when withRandNum holds and empty otherwise.
   */
  predicate DrawFrom(c: Content, d: Draw)
    requires WellFormed(c)
  {
    var emoji := c.emoji.value;
    && d.tagEmoji in emoji && d.bodyEmoji1 in emoji && d.bodyEmoji2 in emoji
    && d.exEmoji1 in emoji && d.exEmoji2 in emoji
    && d.body in c.znlText.value
    && d.exclamation in c.exText.value
    && if c.withRandNum.value then
         ParseCanonical(d.numberSlot).Some? && ParseCanonical(d.numberSlot).value <= MAX_RAND_NUM
       else
         d.numberSlot == ""
  }

  /** The pieces the given draws select. */
  function DrawOf(c: Content, rng: Randomness): Draw
    requires WellFormed(c) && Admissible(c, rng)
  {
    var emoji := c.emoji.value;
    Draw(emoji[rng.tagEmoji], c.znlText.value[rng.body],
         emoji[rng.bodyEmoji1], emoji[rng.bodyEmoji2],
         c.exText.value[rng.exclamation], emoji[rng.exEmoji1], emoji[rng.exEmoji2],
         if c.withRandNum.value then Str(rng.randNum) else "")
  }

  /** The pieces any draws select are pieces the content allows. */
  lemma DrawOfAllowed(c: Content, rng: Randomness)
    requires WellFormed(c) && Admissible(c, rng)
    ensures DrawFrom(c, DrawOf(c, rng))
  {
    StrRoundTrip(rng.randNum);
  }

  /** Every post generated is the layout of the pieces its draws select. */
  lemma GenerateSound(c: Content, rng: Randomness)
    requires WellFormed(c) && Admissible(c, rng)
    ensures GenerateZnlText(c, rng) == Layout(c.tags1.value, c.tags2.value, DrawOf(c, rng))
  {
  }

  /**
    Every layout of allowed pieces is generated by some draws: the five emoji
    are chosen independently and may repeat, and any number 0..888888 may fill
    the slot.
   */
  lemma GenerateComplete(c: Content, d: Draw)
    requires WellFormed(c) && DrawFrom(c, d)
    ensures exists rng :: Admissible(c, rng) && GenerateZnlText(c, rng) == Layout(c.tags1.value, c.tags2.value, d)
  {
    var emoji, znl, ex := c.emoji.value, c.znlText.value, c.exText.value;
    var i1 :| 0 <= i1 < |emoji| && emoji[i1] == d.tagEmoji;
    var i2 :| 0 <= i2 < |emoji| && emoji[i2] == d.bodyEmoji1;
    var i3 :| 0 <= i3 < |emoji| && emoji[i3] == d.bodyEmoji2;
    var i4 :| 0 <= i4 < |emoji| && emoji[i4] == d.exEmoji1;
    var i5 :| 0 <= i5 < |emoji| && emoji[i5] == d.exEmoji2;
    var b :| 0 <= b < |znl| && znl[b] == d.body;
    var e :| 0 <= e < |ex| && ex[e] == d.exclamation;
    var n := if c.withRandNum.value then ParseCanonical(d.numberSlot).value else 0;
    if c.withRandNum.value {
      ParseRoundTrip(d.numberSlot, n);
    }
    var rng := Randomness(n, i1, b, i2, i3, e, i4, i5);
    assert DrawOf(c, rng) == d;
    GenerateSound(c, rng);
  }

  /**
    The third line ends with a space and then the number slot: nothing when
    withRandNum is false, the decimal text of the drawn 0..888888 otherwise.
   */
  lemma NumberSlot(c: Content, rng: Randomness)
    requires WellFormed(c) && Admissible(c, rng)
    ensures !c.withRandNum.value ==> EndsWith(GenerateZnlText(c, rng), " " + POST_SUFFIX)
    ensures c.withRandNum.value ==>
              EndsWith(GenerateZnlText(c, rng), " " + Str(rng.randNum) + POST_SUFFIX)
  {
    GenerateSound(c, rng);
    var d := DrawOf(c, rng);
    var text := GenerateZnlText(c, rng);
    var head := d.exclamation + NAME_SUFFIX + d.exEmoji1 + d.exEmoji2;
    var front := Line1(c.tags1.value, c.tags2.value, d) + "\n" + Line2(d) + "\n" + head;
    var tail := " " + d.numberSlot + POST_SUFFIX;
    assert text == front + tail;
    assert text[|text| - |tail|..] == tail;
  }

  /**
    Neither tag nor any of the seven drawn entries contains a newline (the
    number slot never does). Entries of the lists that were not drawn do not matter.
   */
  predicate NewlineFree(tags1: string, tags2: string, d: Draw) {
    && '\n' !in tags1 && '\n' !in tags2
    && '\n' !in d.tagEmoji && '\n' !in d.body && '\n' !in d.bodyEmoji1 && '\n' !in d.bodyEmoji2
    && '\n' !in d.exclamation && '\n' !in d.exEmoji1 && '\n' !in d.exEmoji2
  }

  /** The layout splits at its four newlines when no line contains one. */
  lemma LayoutLines(l1: string, l2: string, l3: string)
    requires '\n' !in l1 && '\n' !in l2 && '\n' !in l3
    ensures Split(l1 + "\n" + l2 + "\n" + l3 + "\n" + MENTION + "\n", '\n') == [l1, l2, l3, MENTION, ""]
  {
    var t4 := MENTION + ['\n'] + "";
    var t3 := l3 + ['\n'] + t4;
    var t2 := l2 + ['\n'] + t3;
    assert l1 + "\n" + l2 + "\n" + l3 + "\n" + MENTION + "\n" == l1 + ['\n'] + t2;
    assert Split("", '\n') == [""];
    SplitConcat(MENTION, "", '\n');
    SplitConcat(l3, t4, '\n');
    SplitConcat(l2, t3, '\n');
    SplitConcat(l1, t2, '\n');
  }

  /** When nothing drawn contains a newline, the post splits into exactly four lines and a final "". */
  lemma FourLines(c: Content, rng: Randomness)
    requires WellFormed(c) && Admissible(c, rng)
    requires NewlineFree(c.tags1.value, c.tags2.value, DrawOf(c, rng))
    ensures var d := DrawOf(c, rng);
            Split(GenerateZnlText(c, rng), '\n')
            == [Line1(c.tags1.value, c.tags2.value, d), Line2(d), Line3(d), MENTION, ""]
  {
    GenerateSound(c, rng);
    var d := DrawOf(c, rng);
    DrawOfAllowed(c, rng);
    assert '\n' !in d.numberSlot by {
      if c.withRandNum.value {
        assert AllDigits(d.numberSlot);
      }
    }
    LayoutLines(Line1(c.tags1.value, c.tags2.value, d), Line2(d), Line3(d));
  }
}
