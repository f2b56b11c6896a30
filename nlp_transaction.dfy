/** The text preprocessor of the transaction classifier, applied to the
    Source column when the model is trained and to the request text when a
    category is predicted.  The vectorizer and the random forest are one
    opaque function from cleaned text to a category. */
module NlpTransaction {
  import opened Common
  import opened TextRules
  import opened Frames
  import MongoCleaning

  /** The class `[a-zA-Z0-9\s]` of the preprocessing pattern. */
  predicate PatternChar(c: char) {
    IsLowerLetter(c) || IsUpper(c) || IsDigit(c) || IsSpace(c)
  }

  /** `re.sub(r'[^a-zA-Z0-9\s]', '', text.lower())` for a string: only
      lower-case letters, digits and whitespace remain, in their order, and
      every such character of the lower-cased text remains. */
  function PreprocessString(text: string): (r: string)
    ensures forall i :: 0 <= i < |r| ==> IsLowerLetter(r[i]) || IsDigit(r[i]) || IsSpace(r[i])
    ensures IsSubsequence(r, Lower(text)) && |r| <= |text|
    ensures |r| == CountKept(Lower(text), PatternChar)
  {
    NormaliseShape(text, PatternChar);
    Normalise(text, PatternChar)
  }

  /** `preprocess_text(text)`: `str` first, so any value is accepted; a
      missing Source value (NaN) is "nan". */
  function PreprocessText(text: Cell, showNum: real -> string): string {
    PreprocessString(CellText(text, showNum))
  }

  /** The preprocessed text is THE subsequence of the lower-cased input made
      of letters, digits and whitespace. */
  lemma PreprocessUnique(text: string, r: string)
    requires forall i :: 0 <= i < |r| ==> IsLowerLetter(r[i]) || IsDigit(r[i]) || IsSpace(r[i])
    requires IsSubsequence(r, Lower(text))
    requires |r| == CountKept(Lower(text), PatternChar)
    ensures r == PreprocessString(text)
  {
    FilterUnique(r, Lower(text), PatternChar);
  }

  /** Preprocessing twice is preprocessing once. */
  lemma PreprocessIdempotent(text: string)
    ensures PreprocessString(PreprocessString(text)) == PreprocessString(text)
  {
    NormaliseIdempotent(text, PatternChar);
  }

  /** An empty Source field is read as NaN and becomes the word "nan". */
  lemma MissingSourceIsNan(showNum: real -> string)
    ensures PreprocessText(Missing, showNum) == "nan"
  {
    assert Lower("nan") == "nan";
    FilterKeepsAdmitted("nan", PatternChar);
  }

  /** Tabs and newlines survive preprocessing but not description
      normalisation, whose class holds the space character only. */
  lemma WhitespaceDiffersFromDescriptions()
    ensures PreprocessString("a\tb\n") == "a\tb\n"
    ensures MongoCleaning.NormaliseDescription("a\tb\n") == "ab"
  {
    TabsKept();
    TabsDropped();
  }

  lemma TabsKept()
    ensures PreprocessString("a\tb\n") == "a\tb\n"
  {
    var s := "a\tb\n";
    assert Lower(s) == s;
    FilterKeepsAdmitted(s, PatternChar);
  }

  lemma TabsDropped()
    ensures MongoCleaning.NormaliseDescription("a\tb\n") == "ab"
  {
    var s := "a\tb\n";
    assert s[1..] == "\tb\n" && s[2..] == "b\n" && s[3..] == "\n" && s[4..] == "";
    assert Filter(s, MongoCleaning.DescriptionChar) == "ab";
  }

  /** `df['clean_text'] = df['Source'].apply(preprocess_text)`: one cleaned
      text per row, in row order. */
  function CleanTextColumn(sources: seq<Cell>, showNum: real -> string): (r: seq<string>)
    ensures |r| == |sources|
    ensures forall i :: 0 <= i < |sources| ==> r[i] == PreprocessText(sources[i], showNum)
  {
    if sources == [] then []
    else [PreprocessText(sources[0], showNum)] + CleanTextColumn(sources[1..], showNum)
  }

  /** `predict_category(request)`: the request text goes through the same
      preprocessor before the model sees it. */
  function PredictCategory(classify: string -> string, transaction: string): string {
    classify(PreprocessString(transaction))
  }

  /** Training and serving agree: a request whose text equals a training
      row's Source is classified from exactly that row's cleaned text, and a
      request that is already clean is classified as its raw form. */
  lemma TrainServeConsistency(classify: string -> string, sources: seq<Cell>, showNum: real -> string, i: nat)
    requires i < |sources| && sources[i].Text?
    ensures PredictCategory(classify, sources[i].s) == classify(CleanTextColumn(sources, showNum)[i])
    ensures PredictCategory(classify, PreprocessString(sources[i].s)) == PredictCategory(classify, sources[i].s)
  {
    PreprocessIdempotent(sources[i].s);
  }
}
