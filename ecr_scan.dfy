/**
 * The scan trigger of ecr_scan/cmd/main.go: list the registry's repositories,
 * pick the most recently pushed image of each, and start one image scan per
 * repository. The ECR calls are abstracted: `DescribeRepositories` becomes the
 * sequence of repositories it returned, `DescribeImages` a lookup in a map from
 * repository name to its image records, and every call made is recorded in a log.
 */
module EcrScan {
  import opened Wrappers

  /** The zero `time.Time` the selection starts from; push times are compared with it. */
  const ZeroTime: int := 0

  /** The part of an `ecr.Repository` the handler reads. */
  datatype Repository = Repository(repositoryName: string)

  /** The part of an `ecr.ImageDetail` the handler reads. */
  datatype ImageDetail = ImageDetail(
    imagePushedAt: int,
    imageTags: seq<string>,
    imageDigest: string,
    registryId: string,
    repositoryName: string)

  /** The four strings AWSDescribeImage returns, in its return order. */
  datatype Selection = Selection(imageDigest: string, imageTag: string, registryId: string, repository: string)

  datatype ImageId = ImageId(imageDigest: string, imageTag: string)

  /** The arguments of one `StartImageScan` request. */
  datatype ScanSpec = ScanSpec(imageId: ImageId, registryId: string, repository: string)

  /** One call to ECR made by the handler. */
  datatype Call = DescribeRepositories | DescribeImages(repositoryName: string) | StartImageScan(spec: ScanSpec)

  /** `DescribeImages` for one repository; a repository it cannot find yields no images. */
  function ImagesOf(registry: map<string, seq<ImageDetail>>, name: string): seq<ImageDetail> {
    if name in registry then registry[name] else []
  }

  /**
   * The request AwsStartScan builds from AWSDescribeImage's four results: the
   * image is named by the selected digest and tag, in the selected registry
   * and repository.
   */
  function ScanInput(sel: Selection): (spec: ScanSpec)
    ensures spec.imageId.imageDigest == sel.imageDigest && spec.imageId.imageTag == sel.imageTag
    ensures spec.registryId == sel.registryId && spec.repository == sel.repository
  {
    ScanSpec(ImageId(sel.imageDigest, sel.imageTag), sel.registryId, sel.repository)
  }

  // ---------------------------------------------------------------------------
  // Specification of the latest-image selection

  /** The latest push time among `s`, or the zero time if none is later. */
  function MaxPushedAt(s: seq<ImageDetail>): (m: int)
    ensures m >= ZeroTime
    ensures forall k :: 0 <= k < |s| ==> s[k].imagePushedAt <= m
    ensures m == ZeroTime || exists k :: 0 <= k < |s| && s[k].imagePushedAt == m
  {
    if s == [] then ZeroTime
    else
      var front := s[..|s| - 1];
      var m := MaxPushedAt(front);
      assert forall k :: 0 <= k < |front| ==> front[k] == s[k];
      if s[|s| - 1].imagePushedAt > m then s[|s| - 1].imagePushedAt else m
  }

  /** The first position whose push time is `t`. */
  function FirstPushedAt(s: seq<ImageDetail>, t: int): (k: nat)
    requires exists j :: 0 <= j < |s| && s[j].imagePushedAt == t
    ensures k < |s| && s[k].imagePushedAt == t
    ensures forall j :: 0 <= j < k ==> s[j].imagePushedAt != t
  {
    if s[0].imagePushedAt == t then 0
    else
      assert exists j :: 0 <= j < |s[1..]| && s[1..][j].imagePushedAt == t by {
        var j :| 0 <= j < |s| && s[j].imagePushedAt == t;
        assert s[1..][j - 1] == s[j];
      }
      1 + FirstPushedAt(s[1..], t)
  }

  /**
   * The image the selection keeps: the first of those with the latest push
   * time, provided that time is strictly after the zero time.
   */
  function Latest(s: seq<ImageDetail>): (r: Option<nat>)
    ensures r.None? <==> forall j :: 0 <= j < |s| ==> s[j].imagePushedAt <= ZeroTime
    ensures r.Some? ==> r.value < |s| && s[r.value].imagePushedAt > ZeroTime
    ensures r.Some? ==> forall j :: 0 <= j < |s| ==> s[j].imagePushedAt <= s[r.value].imagePushedAt
    ensures r.Some? ==> forall j :: 0 <= j < r.value ==> s[j].imagePushedAt < s[r.value].imagePushedAt
  {
    var m := MaxPushedAt(s);
    if m == ZeroTime then None else Some(FirstPushedAt(s, m))
  }

  /**
   * Image `k` is strictly later than the zero time and than every image
   * before it: exactly the images at which the selection loop takes a new
   * choice.
   */
  ghost predicate IsRecord(s: seq<ImageDetail>, k: nat)
    requires k < |s|
  {
    s[k].imagePushedAt > ZeroTime && forall j :: 0 <= j < k ==> s[j].imagePushedAt < s[k].imagePushedAt
  }

  /** `t` is the last tag of some record image. */
  ghost predicate IsRecordTag(s: seq<ImageDetail>, t: string) {
    exists k :: 0 <= k < |s| && IsRecord(s, k) && |s[k].imageTags| > 0 && t == s[k].imageTags[|s[k].imageTags| - 1]
  }

  /** Whether image `k` is a record depends only on the images up to it. */
  lemma RecordInPrefix(s: seq<ImageDetail>, n: nat, k: nat)
    requires k < n <= |s|
    ensures s[..n][k] == s[k]
    ensures IsRecord(s[..n], k) <==> IsRecord(s, k)
  {
  }

  /**
   * The tag the selection leaves: the last tag of the latest record image
   * that has tags at all, or "" when there is none. When the chosen image is
   * untagged, this tag belongs to an earlier image.
   */
  ghost function SelectedTag(s: seq<ImageDetail>): (t: string)
    ensures t == "" || IsRecordTag(s, t)
  {
    if s == [] then ""
    else
      var n := |s| - 1;
      var tags := s[n].imageTags;
      if IsRecord(s, n) && |tags| > 0 then
        var t := tags[|tags| - 1];
        assert IsRecordTag(s, t) by {
          assert 0 <= n < |s| && IsRecord(s, n) && |s[n].imageTags| > 0 && t == s[n].imageTags[|s[n].imageTags| - 1];
        }
        t
      else
        var t := SelectedTag(s[..n]);
        assert t == "" || IsRecordTag(s, t) by {
          if t != "" {
            var k :| 0 <= k < n && IsRecord(s[..n], k) && |s[..n][k].imageTags| > 0
                     && t == s[..n][k].imageTags[|s[..n][k].imageTags| - 1];
            RecordInPrefix(s, n, k);
            assert 0 <= k < |s| && IsRecord(s, k) && |s[k].imageTags| > 0 && t == s[k].imageTags[|s[k].imageTags| - 1];
          }
        }
        t
  }

  /** What AWSDescribeImage returns for the image records `s`. */
  ghost function Selected(s: seq<ImageDetail>): Selection {
    match Latest(s)
    case None => Selection("", SelectedTag(s), "", "")
    case Some(k) => Selection(s[k].imageDigest, SelectedTag(s), s[k].registryId, s[k].repositoryName)
  }

  // ---------------------------------------------------------------------------
  // Lemmas about the selection

  /**
   * With no image later than the zero time all four results are empty;
   * otherwise digest, registry and repository come from the chosen image.
   */
  lemma SelectedFields(s: seq<ImageDetail>)
    ensures Latest(s).None? ==> Selected(s) == Selection("", "", "", "")
    ensures Latest(s).Some? ==>
      var img := s[Latest(s).value];
      && Selected(s).imageDigest == img.imageDigest
      && Selected(s).registryId == img.registryId
      && Selected(s).repository == img.repositoryName
  {
  }

  /** Image `k` is a record exactly when it is later than everything before it and the zero time. */
  lemma RecordIffAboveMax(s: seq<ImageDetail>, k: nat)
    requires k < |s|
    ensures IsRecord(s, k) <==> s[k].imagePushedAt > MaxPushedAt(s[..k])
  {
  }

  /** When no record image has tags (in particular when there is no record), no tag is ever taken. */
  lemma NoTaggedRecordNoTag(s: seq<ImageDetail>)
    requires forall k :: 0 <= k < |s| && IsRecord(s, k) ==> |s[k].imageTags| == 0
    ensures SelectedTag(s) == ""
  {
  }

  /** The tag is the last tag of the last record image that has tags. */
  lemma {:induction false} LastTaggedRecordTag(s: seq<ImageDetail>, k: nat)
    requires k < |s| && IsRecord(s, k) && |s[k].imageTags| > 0
    requires forall j :: k < j < |s| && IsRecord(s, j) ==> |s[j].imageTags| == 0
    ensures SelectedTag(s) == s[k].imageTags[|s[k].imageTags| - 1]
  {
    if k < |s| - 1 {
      var front := s[..|s| - 1];
      assert forall j :: 0 <= j < |front| ==> front[j] == s[j];
      assert IsRecord(front, k);
      forall j | k < j < |front| && IsRecord(front, j) ensures |front[j].imageTags| == 0 {
        assert IsRecord(s, j);
      }
      LastTaggedRecordTag(front, k);
    }
  }

  /** Records after position `n` are the only ones that can change the tag. */
  lemma {:induction false} SelectedTagOfPrefix(s: seq<ImageDetail>, n: nat)
    requires n <= |s|
    requires forall k :: n <= k < |s| ==> !IsRecord(s, k)
    ensures SelectedTag(s) == SelectedTag(s[..n])
    decreases |s| - n
  {
    if n < |s| {
      var front := s[..|s| - 1];
      assert forall j :: 0 <= j < |front| ==> front[j] == s[j];
      forall k | n <= k < |front| ensures !IsRecord(front, k) {
        assert !IsRecord(s, k);
      }
      SelectedTagOfPrefix(front, n);
      assert front[..n] == s[..n];
    } else {
      assert s[..n] == s;
    }
  }

  /** The chosen image is a record and no image after it is one. */
  lemma LatestIsLastRecord(s: seq<ImageDetail>, k: nat)
    requires Latest(s) == Some(k)
    ensures IsRecord(s, k)
    ensures forall j :: k < j < |s| ==> !IsRecord(s, j)
  {
  }

  /** A tagged winner contributes its own last tag. */
  lemma TaggedLatestTag(s: seq<ImageDetail>, k: nat)
    requires Latest(s) == Some(k)
    requires |s[k].imageTags| > 0
    ensures Selected(s).imageTag == s[k].imageTags[|s[k].imageTags| - 1]
  {
    LatestIsLastRecord(s, k);
    SelectedTagOfPrefix(s, k + 1);
    var p := s[..k + 1];
    assert forall j :: 0 <= j < |p| ==> p[j] == s[j];
    assert IsRecord(p, k);
  }

  /**
   * An untagged winner does not reset the tag: the result carries the tag
   * selected from the images before it, together with the winner's digest.
   */
  lemma UntaggedLatestInheritsTag(s: seq<ImageDetail>, k: nat)
    requires Latest(s) == Some(k)
    requires |s[k].imageTags| == 0
    ensures Selected(s).imageTag == SelectedTag(s[..k])
    ensures Selected(s).imageDigest == s[k].imageDigest
  {
    LatestIsLastRecord(s, k);
    SelectedTagOfPrefix(s, k + 1);
    var p := s[..k + 1];
    assert p[..k] == s[..k];
  }

  /** A concrete instance: an older tagged image, then a newer untagged one. */
  lemma UntaggedLatestExample()
    ensures Selected([ImageDetail(1, ["v1"], "sha256:old", "reg", "app"),
                      ImageDetail(2, [], "sha256:new", "reg", "app")])
            == Selection("sha256:new", "v1", "reg", "app")
  {
  }

  /** How one more image record changes the selection: the loop body of AWSDescribeImage. */
  lemma SelectedStep(s: seq<ImageDetail>, x: ImageDetail)
    ensures MaxPushedAt(s + [x]) == if x.imagePushedAt > MaxPushedAt(s) then x.imagePushedAt else MaxPushedAt(s)
    ensures Selected(s + [x]) ==
      if x.imagePushedAt > MaxPushedAt(s) then
        Selection(x.imageDigest,
                  if |x.imageTags| > 0 then x.imageTags[|x.imageTags| - 1] else Selected(s).imageTag,
                  x.registryId, x.repositoryName)
      else Selected(s)
  {
    var t := s + [x];
    assert t[..|s|] == s;
    RecordIffAboveMax(t, |s|);
    var m := MaxPushedAt(s);
    if x.imagePushedAt > m {
      assert Latest(t) == Some(|s|) by {
        forall j | 0 <= j < |s| ensures t[j].imagePushedAt < x.imagePushedAt {
          assert t[j] == s[j];
        }
      }
    } else if m != ZeroTime {
      var k := FirstPushedAt(s, m);
      var k' := FirstPushedAt(t, m);
      assert t[k] == s[k];
      assert k' < |s| ==> t[k'] == s[k'];
      assert k == k';
    }
  }

  // ---------------------------------------------------------------------------
  // The handler

  /** AwsListRepo: the names of the repositories, in the order they were listed. */
  method AwsListRepo(repositories: seq<Repository>) returns (repoName: seq<string>)
    ensures |repoName| == |repositories|
    ensures forall k :: 0 <= k < |repositories| ==> repoName[k] == repositories[k].repositoryName
  {
    repoName := [];
    var i := 0;
    while i < |repositories|
      invariant 0 <= i <= |repositories|
      invariant |repoName| == i
      invariant forall k :: 0 <= k < i ==> repoName[k] == repositories[k].repositoryName
    {
      repoName := repoName + [repositories[i].repositoryName];
      i := i + 1;
    }
  }

  /**
   * AWSDescribeImage: scan the image records keeping the one pushed strictly
   * later than everything seen so far, and take the last tag of each kept
   * record that has tags.
   */
  method AWSDescribeImage(imageDetails: seq<ImageDetail>)
    returns (imageDigest: string, imageTag: string, registryId: string, repository: string)
    ensures Selection(imageDigest, imageTag, registryId, repository) == Selected(imageDetails)
  {
    var imagePushAt := ZeroTime;
    imageTag, imageDigest, registryId, repository := "", "", "", "";
    var i := 0;
    while i < |imageDetails|
      invariant 0 <= i <= |imageDetails|
      invariant imagePushAt == MaxPushedAt(imageDetails[..i])
      invariant Selection(imageDigest, imageTag, registryId, repository) == Selected(imageDetails[..i])
    {
      var r := imageDetails[i];
      ghost var before := imageDetails[..i];
      ghost var tagBefore := imageTag;
      assert imageDetails[..i + 1] == before + [r];
      SelectedStep(before, r);
      if r.imagePushedAt > imagePushAt {
        var j := 0;
        while j < |r.imageTags|
          invariant 0 <= j <= |r.imageTags|
          invariant imageTag == if j == 0 then tagBefore else r.imageTags[j - 1]
        {
          imageTag := r.imageTags[j];
          j := j + 1;
        }
        imagePushAt := r.imagePushedAt;
        imageDigest := r.imageDigest;
        registryId := r.registryId;
        repository := r.repositoryName;
      }
      i := i + 1;
    }
    assert imageDetails[..i] == imageDetails;
  }

  /**
   * HandleLambda: list the repositories (the first call in the log), then for
   * each name in turn describe its images and start a scan with the four
   * values the description returned.
   */
  method HandleLambda(repositories: seq<Repository>, registry: map<string, seq<ImageDetail>>)
    returns (calls: seq<Call>)
    ensures |calls| == 2 * |repositories| + 1
    ensures calls[0] == DescribeRepositories
    ensures forall k :: 0 <= k < |repositories| ==>
              && calls[2 * k + 1] == DescribeImages(repositories[k].repositoryName)
              && calls[2 * k + 2] == StartImageScan(ScanInput(Selected(ImagesOf(registry, repositories[k].repositoryName))))
  {
    calls := [DescribeRepositories];
    var repoArray := AwsListRepo(repositories);
    var i := 0;
    while i < |repoArray|
      invariant 0 <= i <= |repoArray|
      invariant |calls| == 2 * i + 1
      invariant calls[0] == DescribeRepositories
      invariant forall k :: 0 <= k < i ==>
                  && calls[2 * k + 1] == DescribeImages(repoArray[k])
                  && calls[2 * k + 2] == StartImageScan(ScanInput(Selected(ImagesOf(registry, repoArray[k]))))
    {
      var r := repoArray[i];
      var imageDigest, imageTag, registryId, repository := AWSDescribeImage(ImagesOf(registry, r));
      calls := calls + [DescribeImages(r)];
      calls := calls + [StartImageScan(ScanInput(Selection(imageDigest, imageTag, registryId, repository)))];
      i := i + 1;
    }
  }
}
