/** The media tables of the two revisions of the page: the clip library
    `mouthShapes`, the interlude cheers `midCheerFiles`, and the way each
    revision turns a file name into a URL. */
module Clips {
  import opened Classifier

  /** assets/js/app.js serves media from the site under `/assets/`; api/app.js
      serves them from the repository's raw GitHub URL. The two also differ in
      the switch rule and in the idle bookkeeping of `generateSpeech`. */
  datatype Revision = Assets | Api

  const AssetBase := "/assets/"
  const GithubBase := "https://" + "raw.githubusercontent.com/cybergod-duck/donald.ai/main/"

  /** `mouthShapes[shape]` of api/app.js. */
  function ApiLibrary(shape: Shape): seq<string>
  {
    match shape
    case Closed => ["pause1.mp4", "pause2.mp4", "pause3.mp4", "pause4.mp4", "pause5.mp4"]
    case Narrow => ["1.mp4", "2.mp4", "3.mp4", "4.mp4"]
    case Neutral => ["5.mp4", "6.mp4", "7.mp4", "8.mp4"]
    case Open => ["9.mp4", "10.mp4", "11.mp4", "12.mp4", "13.mp4", "14.mp4"]
    case WideOpen => ["wide1.mp4", "wide2.mp4", "wide3.mp4", "wide4.mp4", "wide5.mp4"]
    case Express => ["express1.mp4", "express2.mp4", "express3.mp4", "express4.mp4", "express5.mp4", "express6.mp4"]
  }

  /** `mouthShapes[shape]` of assets/js/app.js: the same clips, each entry
      already under `mouth-shapes/`. */
  function AssetsLibrary(shape: Shape): seq<string>
  {
    match shape
    case Closed => ["mouth-shapes/pause1.mp4", "mouth-shapes/pause2.mp4", "mouth-shapes/pause3.mp4",
                    "mouth-shapes/pause4.mp4", "mouth-shapes/pause5.mp4"]
    case Narrow => ["mouth-shapes/1.mp4", "mouth-shapes/2.mp4", "mouth-shapes/3.mp4", "mouth-shapes/4.mp4"]
    case Neutral => ["mouth-shapes/5.mp4", "mouth-shapes/6.mp4", "mouth-shapes/7.mp4", "mouth-shapes/8.mp4"]
    case Open => ["mouth-shapes/9.mp4", "mouth-shapes/10.mp4", "mouth-shapes/11.mp4", "mouth-shapes/12.mp4",
                  "mouth-shapes/13.mp4", "mouth-shapes/14.mp4"]
    case WideOpen => ["mouth-shapes/wide1.mp4", "mouth-shapes/wide2.mp4", "mouth-shapes/wide3.mp4",
                      "mouth-shapes/wide4.mp4", "mouth-shapes/wide5.mp4"]
    case Express => ["mouth-shapes/express1.mp4", "mouth-shapes/express2.mp4", "mouth-shapes/express3.mp4",
                     "mouth-shapes/express4.mp4", "mouth-shapes/express5.mp4", "mouth-shapes/express6.mp4"]
  }

  function Library(rev: Revision, shape: Shape): seq<string>
  {
    match rev
    case Assets => AssetsLibrary(shape)
    case Api => ApiLibrary(shape)
  }

  predicate Distinct(s: seq<string>)
  {
    forall i, j :: 0 <= i < j < |s| ==> s[i] != s[j]
  }

  predicate WellFormed(lib: seq<string>)
  {
    |lib| >= 4 && Distinct(lib) && forall c :: c in lib ==> c != ""
  }

  lemma AssetsLibraryWellFormed(shape: Shape)
    ensures WellFormed(AssetsLibrary(shape))
  {
    match shape
    case Closed =>
    case Narrow =>
    case Neutral =>
    case Open =>
    case WideOpen =>
    case Express =>
  }

  lemma ApiLibraryWellFormed(shape: Shape)
    ensures WellFormed(ApiLibrary(shape))
  {
    match shape
    case Closed =>
    case Narrow =>
    case Neutral =>
    case Open =>
    case WideOpen =>
    case Express =>
  }

  /** Every library has at least four clips and names each clip once, and no
      entry is the empty string, so a recorded last-used clip is truthy. */
  lemma LibraryWellFormed(rev: Revision, shape: Shape)
    ensures |Library(rev, shape)| >= 4
    ensures Distinct(Library(rev, shape))
    ensures forall c :: c in Library(rev, shape) ==> c != ""
  {
    AssetsLibraryWellFormed(shape);
    ApiLibraryWellFormed(shape);
  }

  /** The assets entries already carry the `mouth-shapes/` directory. */
  lemma AssetsEntriesPrefixed(shape: Shape, i: nat)
    requires i < |AssetsLibrary(shape)|
    ensures |AssetsLibrary(shape)[i]| > 13 && AssetsLibrary(shape)[i][..13] == "mouth-shapes/"
  {
    match shape
    case Closed =>
    case Narrow =>
    case Neutral =>
    case Open =>
    case WideOpen =>
    case Express =>
  }

  /** What the tick and the interlude pass to `switchVideo` for a drawn clip:
      assets/js/app.js prepends `mouth-shapes/` to an entry that already
      carries it; api/app.js passes the entry itself. */
  function ClipRequest(rev: Revision, clip: string): string
  {
    match rev
    case Assets => "mouth-shapes/" + clip
    case Api => clip
  }

  /** The full path `switchVideo` compares with and assigns to `src`. */
  function VideoPath(rev: Revision, file: string): string
  {
    match rev
    case Assets => AssetBase + "videos/" + file
    case Api => GithubBase + file
  }

  /** An assets path is root-relative; an api path is an absolute URL. */
  lemma PathHeads(rev: Revision, file: string)
    ensures VideoPath(rev, file) != []
    ensures VideoPath(rev, file)[0] == (if rev == Assets then '/' else 'h')
  {
    assert AssetBase[0] == '/';
    assert ("https://" + "raw.githubusercontent.com/cybergod-duck/donald.ai/main/")[0] == "https://"[0];
  }

  function IdleFile(rev: Revision): string
  {
    match rev
    case Assets => "special/idle.mp4"
    case Api => "idle.mp4"
  }

  function EndFile(rev: Revision): string
  {
    match rev
    case Assets => "special/end.mp4"
    case Api => "end.mp4"
  }

  /** `midCheerFiles`: cheer 2 is kept for the end video. */
  function MidCheerFiles(rev: Revision): (r: seq<string>)
    ensures |r| == 4
  {
    match rev
    case Assets => ["audio/cheers/cheer1.mp3", "audio/cheers/cheer3.mp3", "audio/cheers/cheer4.mp3", "audio/cheers/cheer5.mp3"]
    case Api => ["cheer1.mp3", "cheer3.mp3", "cheer4.mp3", "cheer5.mp3"]
  }

  /** The URL of an interlude cheer. */
  function CheerUrl(rev: Revision, file: string): string
  {
    match rev
    case Assets => AssetBase + file
    case Api => GithubBase + file
  }

  /** The URL of the cheer scheduled over the end video. */
  function EndCheerUrl(rev: Revision): string
  {
    match rev
    case Assets => AssetBase + "audio/cheers/cheer2.mp3"
    case Api => GithubBase + "cheer2.mp3"
  }

  /** The end cheer is not one of the interlude cheers. */
  lemma EndCheerDistinct(rev: Revision, k: nat)
    requires k < 4
    ensures CheerUrl(rev, MidCheerFiles(rev)[k]) != EndCheerUrl(rev)
  {
    var u, e := CheerUrl(rev, MidCheerFiles(rev)[k]), EndCheerUrl(rev);
    var at := |u| - 5;
    assert u[at] != e[at];
  }

  /** In assets/js/app.js every clip the tick switches to is requested under a
      doubled `mouth-shapes/mouth-shapes/` directory. */
  lemma AssetsClipPathDoubled(shape: Shape, i: nat)
    requires i < |AssetsLibrary(shape)|
    ensures VideoPath(Assets, ClipRequest(Assets, Library(Assets, shape)[i]))
         == "/assets/videos/mouth-shapes/mouth-shapes/" + AssetsLibrary(shape)[i][13..]
  {
    var c := AssetsLibrary(shape)[i];
    AssetsEntriesPrefixed(shape, i);
    assert c == "mouth-shapes/" + c[13..];
    AssetsPath(c);
  }

  lemma AssetsPath(c: string)
    ensures VideoPath(Assets, ClipRequest(Assets, c)) == "/assets/videos/mouth-shapes/" + c
  {
  }
}
