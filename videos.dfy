/** The video records the home sections and the favorites page display, and the
    choice of which file of a video to play (the same `getBestVideoQuality` appears in
    `components/MovieSection.tsx` and `pages/favorites.tsx`). */
module Videos {
  import opened Options

  datatype VideoFile = VideoFile(id: int, quality: string, fileType: string, link: string)

  datatype VideoUser = VideoUser(id: int, name: string, url: string)

  datatype Video = Video(id: int, image: string, files: seq<VideoFile>, user: VideoUser, duration: int)

  /** File `i` is the first one of quality "hd". */
  predicate FirstHdAt(files: seq<VideoFile>, i: int) {
    && 0 <= i < |files|
    && files[i].quality == "hd"
    && forall j :: 0 <= j < i ==> files[j].quality != "hd"
  }

  predicate HasHd(files: seq<VideoFile>) {
    exists i :: 0 <= i < |files| && files[i].quality == "hd"
  }

  /** `videoFiles.find(file => file.quality === "hd")`, as an index. */
  function FindHd(files: seq<VideoFile>): (r: Option<nat>)
    ensures r.Some? <==> HasHd(files)
    ensures r.Some? ==> FirstHdAt(files, r.value)
  {
    if files == [] then None
    else if files[0].quality == "hd" then Some(0)
    else
      match FindHd(files[1..])
      case None =>
        assert !HasHd(files) by {
          forall i | 0 <= i < |files| ensures files[i].quality != "hd" {
            if i > 0 { assert files[i] == files[1..][i - 1]; }
          }
        }
        None
      case Some(k) =>
        assert files[k + 1] == files[1..][k];
        assert forall j :: 1 <= j < k + 1 ==> files[j] == files[1..][j - 1];
        Some(k + 1)
  }

  /** `getBestVideoQuality`: the first "hd" file's link, else the first file's link,
      else the empty string. */
  function BestVideoQuality(files: seq<VideoFile>): (link: string)
    ensures forall i :: FirstHdAt(files, i) ==> link == files[i].link
    ensures !HasHd(files) && files != [] ==> link == files[0].link
    ensures files == [] ==> link == ""
  {
    match FindHd(files)
    case Some(i) =>
      FirstHdUnique(files, i);
      files[i].link
    case None => if files != [] && files[0].link != "" then files[0].link else ""
  }

  lemma FirstHdUnique(files: seq<VideoFile>, i: int)
    requires FirstHdAt(files, i)
    ensures forall j :: FirstHdAt(files, j) ==> j == i
  {
  }

  /** The chosen link always belongs to one of the files, and it belongs to an "hd"
      file whenever there is one. */
  lemma BestQualityIsAFileLink(files: seq<VideoFile>)
    requires files != []
    ensures exists i :: 0 <= i < |files| && files[i].link == BestVideoQuality(files)
    ensures HasHd(files) ==>
      exists i :: 0 <= i < |files| && files[i].quality == "hd" && files[i].link == BestVideoQuality(files)
  {
    match FindHd(files)
    case Some(i) =>
      assert files[i].link == BestVideoQuality(files);
    case None =>
      assert files[0].link == BestVideoQuality(files);
  }

  /** Files after the first "hd" one, and files before it, play no role. */
  lemma BestQualityIgnoresLaterFiles(files: seq<VideoFile>, more: seq<VideoFile>)
    requires HasHd(files)
    ensures BestVideoQuality(files + more) == BestVideoQuality(files)
  {
    var i := FindHd(files).value;
    assert FirstHdAt(files + more, i) by {
      assert forall j :: 0 <= j <= i ==> (files + more)[j] == files[j];
    }
  }
}
