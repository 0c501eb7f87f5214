/** The two checks `handleFileSelect` makes before it reads a chosen file. */
module UploadCheck {

  /** What the model keeps of a browser `File`: its name, MIME type and size
      in bytes. */
  datatype FileInfo = FileInfo(name: string, mimeType: string, size: nat)

  /** The verdict on a chosen file; the two refusals are the two alerts. */
  datatype Verdict = Accepted | NotMediaType | TooLarge

  /** The upload limit, 10 MiB. */
  const MaxUploadBytes: nat := 10 * 1024 * 1024

  /** `pat` occurs in `text` starting at position `i`. */
  ghost predicate OccursAt(pat: string, text: string, i: int)
  {
    0 <= i && i + |pat| <= |text| && text[i..i + |pat|] == pat
  }

  /** Left-to-right search for `pat` anywhere in `text`. A search for the
      regular expression `image.*` succeeds exactly when `image` occurs
      somewhere, since `.*` also matches the empty string; likewise `video.*`. */
  function Occurs(pat: string, text: string): bool
    decreases |text|
  {
    if |text| < |pat| then false
    else text[..|pat|] == pat || Occurs(pat, text[1..])
  }

  lemma {:induction false} OccursIffSomePosition(pat: string, text: string)
    ensures Occurs(pat, text) <==> exists i :: OccursAt(pat, text, i)
    decreases |text|
  {
    if |text| < |pat| {
    } else if text[..|pat|] == pat {
      assert OccursAt(pat, text, 0);
    } else {
      var rest := text[1..];
      OccursIffSomePosition(pat, rest);
      if Occurs(pat, rest) {
        var i :| OccursAt(pat, rest, i);
        assert text[i + 1..i + 1 + |pat|] == rest[i..i + |pat|];
        assert OccursAt(pat, text, i + 1);
      } else {
        forall i | OccursAt(pat, text, i)
          ensures false
        {
          assert i != 0;
          assert rest[i - 1..i - 1 + |pat|] == text[i..i + |pat|];
          assert OccursAt(pat, rest, i - 1);
        }
      }
    }
  }

  /** A pattern with a character the text lacks never occurs in it. */
  lemma {:induction false} AbsentLetterMeansNoOccurrence(pat: string, text: string, c: char)
    requires c in pat && c !in text
    ensures !Occurs(pat, text)
    decreases |text|
  {
    if |text| >= |pat| {
      var k :| 0 <= k < |pat| && pat[k] == c;
      assert c !in text[1..] by {
        forall m | 0 <= m < |text| - 1 ensures text[1..][m] != c {
          assert text[1..][m] == text[m + 1];
        }
      }
      AbsentLetterMeansNoOccurrence(pat, text[1..], c);
    }
  }

  predicate IsMediaType(mimeType: string)
  {
    Occurs("image", mimeType) || Occurs("video", mimeType)
  }

  /** The type test comes first, then the size test. */
  function Validate(file: FileInfo): Verdict
  {
    if !IsMediaType(file.mimeType) then NotMediaType
    else if file.size > MaxUploadBytes then TooLarge
    else Accepted
  }

  /** A file is accepted exactly when its type mentions `image` or `video`
      somewhere and it is at most 10485760 bytes long; a type refusal wins
      over a size refusal. */
  lemma ValidateMeaning(file: FileInfo)
    ensures Validate(file) == Accepted <==>
              ((exists i :: OccursAt("image", file.mimeType, i)) ||
               (exists i :: OccursAt("video", file.mimeType, i))) &&
              file.size <= 10485760
    ensures Validate(file) == NotMediaType <==>
              (forall i :: !OccursAt("image", file.mimeType, i)) &&
              (forall i :: !OccursAt("video", file.mimeType, i))
    ensures Validate(file) == TooLarge <==>
              !(Validate(file) == NotMediaType) && file.size > 10485760
  {
    OccursIffSomePosition("image", file.mimeType);
    OccursIffSomePosition("video", file.mimeType);
  }

  /** The size limit is inclusive: exactly 10 MiB passes, one byte more does not. */
  lemma SizeLimitIsInclusive(name: string)
    ensures Validate(FileInfo(name, "image/png", 10485760)) == Accepted
    ensures Validate(FileInfo(name, "image/png", 10485761)) == TooLarge
    ensures Validate(FileInfo(name, "video/mp4", 0)) == Accepted
  {
  }

  /** The type test is a search anywhere in the type, not a prefix test. */
  lemma TypeTestSearchesAnywhere(size: nat)
    ensures Validate(FileInfo("b", "application/x-image-archive", size)) != NotMediaType
  {
    var t := "application/x-image-archive";
    assert t[14..19] == "image";
    assert OccursAt("image", t, 14);
    OccursIffSomePosition("image", t);
  }

  /** A type refusal is reported whatever the size. */
  lemma TypeRefusalWinsOverSize(size: nat)
    ensures Validate(FileInfo("a.txt", "text/plain", size)) == NotMediaType
    ensures Validate(FileInfo("c", "", size)) == NotMediaType
  {
    var t := "text/plain";
    assert 'm' !in t && 'v' !in t;
    AbsentLetterMeansNoOccurrence("image", t, 'm');
    AbsentLetterMeansNoOccurrence("video", t, 'v');
    assert !IsMediaType(t);
  }
}
