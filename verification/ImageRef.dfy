/** Splitting an image reference into repository and tag. */
module ImageRef {

  const LATEST := "latest"

  // The greatest index of c in s, or -1.
  function LastIndex(s: string, c: char): (i: int)
    ensures -1 <= i < |s|
    ensures i >= 0 ==> s[i] == c
    ensures forall j :: i < j < |s| ==> s[j] != c
  {
    if s == "" then -1
    else if s[|s| - 1] == c then |s| - 1
    else LastIndex(s[..|s| - 1], c)
  }

  function SplitImage(image: string): (string, string) {
    var lastColon := LastIndex(image, ':');
    if lastColon == -1 then (image, LATEST)
    else
      var afterColon := image[lastColon + 1..];
      if '/' in afterColon then (image, LATEST) else (image[..lastColon], afterColon)
  }

  function Join(repository: string, tag: string): string {
    repository + ":" + tag
  }

  // A colon after the last slash starts a tag, which may be empty.
  predicate HasTag(image: string) {
    exists i :: 0 <= i < |image| && image[i] == ':' && '/' !in image[i..]
  }

  lemma AfterLastColon(image: string)
    requires LastIndex(image, ':') >= 0
    ensures var n := LastIndex(image, ':');
            image == Join(image[..n], image[n + 1..]) && ':' !in image[n + 1..]
  {
    var n := LastIndex(image, ':');
    var after := image[n + 1..];
    assert forall j :: 0 <= j < |after| ==> after[j] == image[n + 1 + j];
    assert image == image[..n] + [image[n]] + after;
  }

  lemma HasTagIff(image: string)
    ensures var n := LastIndex(image, ':');
            HasTag(image) <==> n >= 0 && '/' !in image[n + 1..]
  {
    var n := LastIndex(image, ':');
    if n >= 0 {
      var after := image[n + 1..];
      assert image[n..] == [':'] + after;
      forall i | 0 <= i < |image| && image[i] == ':'
        ensures '/' in after ==> '/' in image[i..]
      {
        assert i <= n;
        assert image[i..][n - i + 1..] == after;
      }
    }
  }

  /**
   For every string: with a tag, repository and tag rejoin to the input and the
   tag has neither colon nor slash; without one, the input is returned whole.
   */
  lemma SplitImageIsExact(image: string)
    ensures var (repository, tag) := SplitImage(image);
            if HasTag(image) then Join(repository, tag) == image && ':' !in tag && '/' !in tag
            else (repository, tag) == (image, LATEST)
  {
    HasTagIff(image);
    if LastIndex(image, ':') >= 0 {
      AfterLastColon(image);
    }
  }

  /**
   The same without naming a helper: a colon that no slash follows starts the tag.
   */
  lemma SplitImageOnCharacters(image: string)
    ensures var (repository, tag) := SplitImage(image);
            if exists i :: 0 <= i < |image| && image[i] == ':' && '/' !in image[i..]
            then repository + ":" + tag == image && ':' !in tag && '/' !in tag
            else (repository, tag) == (image, "latest")
  {
    SplitImageIsExact(image);
  }

  /** Splitting the rejoined result gives the same pair, for every input. */
  lemma SplitJoinStable(image: string)
    ensures var (repository, tag) := SplitImage(image);
            SplitImage(Join(repository, tag)) == (repository, tag)
  {
    SplitImageIsExact(image);
    var (repository, tag) := SplitImage(image);
    SplitOfJoin(repository, tag);
  }

  /** A pair whose tag has neither colon nor slash survives joining and splitting. */
  lemma SplitOfJoin(repository: string, tag: string)
    requires ':' !in tag && '/' !in tag
    ensures SplitImage(Join(repository, tag)) == (repository, tag)
  {
    var image := Join(repository, tag);
    var n := LastIndex(image, ':');
    assert image[|repository|] == ':';
    assert n == |repository| by {
      assert forall j :: |repository| < j < |image| ==> image[j] == tag[j - |repository| - 1];
    }
    assert image[n + 1..] == tag && image[..n] == repository;
  }
}
