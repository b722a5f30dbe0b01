/**
 * The content rules the bot applies to a submission once its daily quota has
 * been consumed: at least 25 words for a text or a photo caption, at most 4000
 * characters for a text, and a caption required on every photo.
 */
module Validation {
  import opened Words

  const MinWords := 25
  const MaxChars := 4000

  /** The result of checking one submission's content. */
  datatype Check =
    | Valid(content: string)   // what is to be saved and published
    | TooShort(words: nat)     // fewer than MinWords words; the reply quotes the count
    | TooLong                  // a text over MaxChars characters
    | MissingCaption           // a photo sent without a caption (or with an empty one)

  /** The text branch: the word check comes first, the length check only after it. */
  function ValidateText(text: string): (r: Check)
    ensures r.TooShort? <==> WordCount(text) < MinWords
    ensures r.TooShort? ==> r.words == WordCount(text)
    ensures r.TooLong? <==> WordCount(text) >= MinWords && |text| > MaxChars
    ensures r.Valid? <==> WordCount(text) >= MinWords && |text| <= MaxChars
    ensures r.Valid? ==> r.content == text
    ensures !r.MissingCaption?
  {
    var words := WordCount(text);
    if words < MinWords then TooShort(words)
    else if |text| > MaxChars then TooLong
    else Valid(text)
  }

  /**
   * The photo branch, on the caption with an absent caption read as empty: an
   * empty caption is refused, a caption of fewer than MinWords words is
   * refused, and nothing bounds the caption's length.
   */
  function ValidatePhoto(caption: string): (r: Check)
    ensures r.MissingCaption? <==> caption == []
    ensures r.TooShort? <==> caption != [] && WordCount(caption) < MinWords
    ensures r.TooShort? ==> r.words == WordCount(caption)
    ensures r.Valid? <==> WordCount(caption) >= MinWords
    ensures r.Valid? ==> r.content == caption && r.content != []
    ensures !r.TooLong?
  {
    if caption == [] then MissingCaption
    else
      var words := WordCount(caption);
      if words < MinWords then TooShort(words)
      else Valid(caption)
  }

  // ---------------------------------------------------------------------------
  // The boundaries, on concrete submissions.

  /** 24 words are refused as too short; 25 words are accepted. */
  lemma WordBoundary()
    ensures ValidateText(SampleWords(24)) == TooShort(24)
    ensures ValidateText(SampleWords(25)) == Valid(SampleWords(25))
  {
    SampleWordsCount(24);
    SampleWordsCount(25);
  }

  /** Among texts of enough words, 4000 characters are accepted and 4001 refused. */
  lemma LengthBoundary()
    ensures |SampleWords(25) + Filler(3950)| == 4000
    ensures ValidateText(SampleWords(25) + Filler(3950)).Valid?
    ensures ValidateText(SampleWords(25) + Filler(3951)) == TooLong
  {
    PaddedCount(25, 3950);
    PaddedCount(25, 3951);
  }

  /** A text both too short and too long is reported as too short. */
  lemma ShortBeforeLong()
    ensures |SampleWords(23) + Filler(3955)| == 4001
    ensures ValidateText(SampleWords(23) + Filler(3955)) == TooShort(24)
  {
    PaddedCount(23, 3955);
  }

  /** A caption over 4000 characters is accepted when it has enough words. */
  lemma NoLengthCapOnCaptions()
    ensures |SampleWords(25) + Filler(3951)| == 4001
    ensures ValidatePhoto(SampleWords(25) + Filler(3951)).Valid?
  {
    PaddedCount(25, 3951);
  }
}
