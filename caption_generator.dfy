/** The caption panel (`CaptionGenerator`) shown under an enhanced post: the
    three texts its copy buttons hand to the clipboard, and whether it offers
    a download button. */
module CaptionGenerator {
  import opened Text

  /** The "Copy Caption" text: the handle, one space, the caption. */
  function CaptionText(lead: string, caption: string): (r: string)
    ensures lead + " " <= r && IsSuffix(caption, r)
    ensures |r| == |lead| + 1 + |caption|
  {
    var r := lead + " " + caption;
    assert r[|r| - |caption|..] == caption;
    r
  }

  /** The "Copy Hashtags" text: the hashtags separated by single spaces. */
  function HashtagText(hashtags: seq<string>): (r: string)
    ensures hashtags == [] ==> r == ""
    ensures |hashtags| == 1 ==> r == hashtags[0]
  {
    Join(hashtags, " ")
  }

  /** `fullCaption`: the caption text, a blank line, the hashtag text. It
      starts with what "Copy Caption" copies and ends with what "Copy
      Hashtags" copies, with exactly the two newlines between them. */
  function FullCaption(lead: string, caption: string, hashtags: seq<string>): (r: string)
    ensures CaptionText(lead, caption) + "\n\n" <= r
    ensures IsSuffix(HashtagText(hashtags), r)
    ensures |r| == |CaptionText(lead, caption)| + 2 + |HashtagText(hashtags)|
  {
    var c := CaptionText(lead, caption);
    var h := HashtagText(hashtags);
    var r := c + "\n\n" + h;
    assert r[|r| - |h|..] == h;
    r
  }

  /** The hashtag text gives back the hashtags when it is split at the
      spaces, provided no hashtag holds a space itself. */
  lemma HashtagTextRoundTrip(hashtags: seq<string>)
    requires |hashtags| > 0
    requires forall i :: 0 <= i < |hashtags| ==> ' ' !in hashtags[i]
    ensures Split(HashtagText(hashtags), ' ') == hashtags
  {
    SplitJoin(hashtags, ' ');
  }

  /** What the panel offers. */
  datatype Panel = Panel(
    captionCopy: string,
    hashtagsCopy: string,
    fullText: string,
    downloadButton: bool)

  /** The panel for a caption and its hashtags; `hasOnDownload` says whether
      the caller passed an `onDownload` handler. */
  function Render(restaurantHandle: string, caption: string, hashtags: seq<string>, hasOnDownload: bool): (p: Panel)
    ensures p.downloadButton <==> hasOnDownload
    ensures p.captionCopy <= p.fullText
    ensures IsSuffix(p.hashtagsCopy, p.fullText)
    ensures hashtags == [] ==> p.hashtagsCopy == ""
    ensures p.fullText == p.captionCopy + "\n\n" + p.hashtagsCopy
  {
    Panel(
      CaptionText(restaurantHandle, caption),
      HashtagText(hashtags),
      FullCaption(restaurantHandle, caption, hashtags),
      hasOnDownload)
  }
}
