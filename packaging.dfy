/**
  The Firefox popup's packaging of one batch of chats into a zip archive, and the Markdown
  rendering of a chat.

  The archive is a list of (path, content) entries in the order they are added. For each chat a
  folder `chat_<index>_<title>` is added; a chat with messages also gets its images (only those
  carrying both bytes and a MIME type), its JSON and its Markdown. Each such image is written to
  `images/<file>` and, in a copy of the chat, loses its bytes and has its `src` pointed at that
  relative path; the archive's metadata maps every image file to that same path, its role and
  its MIME type. Chats are values, so the copy cannot alias the input.

  The image file names are `image_<time>_<random>.<ext>`; the `<time>_<random>` part is the
  parameter `stamp`, given the positions of the chat, the message and the image.
 */
module Packaging {
  import opened Wrappers
  import opened Text
  import PopupUi
  import Filenames
  import Transfer

  type Bytes = seq<bv8>

  /** An image of a message; absent or empty strings are None or "". */
  datatype ImageRecord = ImageRecord(src: Option<string>, data: Option<Bytes>, mimeType: Option<string>, role: Option<string>)

  datatype Message = Message(role: string, text: string, images: seq<ImageRecord>)

  /** A scraped chat; an absent index is 0 and an absent title or timestamp is "". */
  datatype Chat = Chat(index: int, title: string, timestamp: string, messages: seq<Message>)

  /** `metadata.images[file]`. */
  datatype ImageMeta = ImageMeta(originalSrc: string, role: Option<string>, mimeType: string)

  /** `metadata.json`; `images` lists the assignments to `metadata.images` in order. */
  datatype Metadata = Metadata(exportTime: string, startIndex: int, chatCount: nat, sourceUrl: string, images: seq<(string, ImageMeta)>)

  datatype Content = Directory | Binary(bytes: Bytes) | ChatJson(chat: Chat) | MarkdownText(text: string) | MetadataJson(meta: Metadata)

  datatype Entry = Entry(path: string, content: Content)

  datatype PackageOutcome = NothingToPackage | Packaged(filename: string, entries: seq<Entry>, chatCount: nat, imageCount: nat)

  const SourceUrl := "https://business.gemini.google.com"

  predicate Truthy(s: Option<string>) {
    s.Some? && s.value != ""
  }

  // ---------------------------------------------------------------------------
  // The extension of an image file
  // ---------------------------------------------------------------------------

  /** The position of the first `c` in `s`, or `|s|` when there is none. */
  function Find(s: string, c: char): (n: nat)
    ensures n <= |s| && c !in s[..n]
    ensures n < |s| ==> s[n] == c
  {
    if s == [] || s[0] == c then 0
    else
      var n := Find(s[1..], c);
      assert s[..n + 1] == [s[0]] + s[1..][..n];
      n + 1
  }

  /** The first `c` is where `c` first occurs. */
  lemma FindIs(s: string, c: char, n: nat)
    requires n <= |s| && c !in s[..n]
    requires n < |s| ==> s[n] == c
    ensures Find(s, c) == n
  {
  }

  /** `mime.split('/')[1]?.split(';')[0] || 'png'`. */
  function Ext(mime: string): (ext: string)
    ensures ext != [] && '/' !in ext && ';' !in ext
  {
    var t := Find(mime, '/');
    if t == |mime| then "png"
    else
      var rest := mime[t + 1..];
      var segment := rest[..Find(rest, '/')];
      var sub := segment[..Find(segment, ';')];
      assert forall k :: 0 <= k < |sub| ==> sub[k] == segment[k];
      if sub == [] then "png" else sub
  }

  /**
    The extension is the MIME subtype, without parameters: for `<type>/<sub>` followed by
    nothing or by `;...`, it is `<sub>`, and `png` when `<sub>` is empty or there is no `/`.
   */
  lemma ExtOfMime(top: string, sub: string, params: string)
    requires '/' !in top && '/' !in sub && ';' !in sub
    requires params == [] || params[0] == ';'
    ensures Ext(top + "/" + sub + params) == if sub == [] then "png" else sub
    ensures Ext(top) == "png"
  {
    var mime := top + "/" + sub + params;
    assert mime[..|top|] == top && mime[|top|] == '/';
    FindIs(mime, '/', |top|);
    var rest := mime[|top| + 1..];
    assert rest == sub + params;
    var f := Find(rest, '/');
    assert rest[..|sub|] == sub;
    var segment := rest[..f];
    assert segment[..|sub|] == sub;
    if |sub| < |segment| {
      assert segment[|sub|] == params[0];
    }
    FindIs(segment, ';', |sub|);
    assert top[..|top|] == top;
    FindIs(top, '/', |top|);
  }

  // ---------------------------------------------------------------------------
  // Rewriting the images of a chat copy
  // ---------------------------------------------------------------------------

  /** An image packaged into the archive: it has bytes and a MIME type. */
  predicate Qualifies(img: ImageRecord) {
    img.data.Some? && Truthy(img.mimeType)
  }

  /** `image_<stamp>.<ext>`. */
  function ImageFile(stamp: string, img: ImageRecord): string
    requires Qualifies(img)
  {
    "image_" + stamp + "." + Ext(img.mimeType.value)
  }

  /** The image in the copy: a packaged image loses its bytes and points at its file; others are kept. */
  function RewriteImage(img: ImageRecord, stamp: string): (r: ImageRecord)
    ensures Qualifies(img) ==> r == img.(data := None, src := Some("images/" + ImageFile(stamp, img)))
    ensures !Qualifies(img) ==> r == img
    ensures !Qualifies(r)
  {
    if Qualifies(img) then img.(data := None, src := Some("images/" + ImageFile(stamp, img))) else img
  }

  /** The images of message j of chat i in the copy. */
  function RewriteImages(imgs: seq<ImageRecord>, i: nat, j: nat, stamp: (nat, nat, nat) -> string): (r: seq<ImageRecord>)
    ensures |r| == |imgs|
  {
    seq(|imgs|, l requires 0 <= l < |imgs| => RewriteImage(imgs[l], stamp(i, j, l)))
  }

  function RewriteMessages(ms: seq<Message>, i: nat, stamp: (nat, nat, nat) -> string): (r: seq<Message>)
    ensures |r| == |ms|
  {
    seq(|ms|, j requires 0 <= j < |ms| => ms[j].(images := RewriteImages(ms[j].images, i, j, stamp)))
  }

  /** The copy of chat i that is stored and rendered. */
  function RewriteChat(c: Chat, i: nat, stamp: (nat, nat, nat) -> string): Chat {
    c.(messages := RewriteMessages(c.messages, i, stamp))
  }

  /** Rewriting the copy a second time changes nothing: no image in it still has bytes. */
  lemma RewriteChatIdempotent(c: Chat, i: nat, stamp: (nat, nat, nat) -> string, stamp2: (nat, nat, nat) -> string)
    ensures RewriteChat(RewriteChat(c, i, stamp), i, stamp2) == RewriteChat(c, i, stamp)
  {
    var once := RewriteChat(c, i, stamp);
    forall j | 0 <= j < |once.messages|
      ensures RewriteImages(once.messages[j].images, i, j, stamp2) == once.messages[j].images
    {
      var imgs := once.messages[j].images;
      forall l | 0 <= l < |imgs|
        ensures RewriteImage(imgs[l], stamp2(i, j, l)) == imgs[l]
      {
        assert imgs[l] == RewriteImage(c.messages[j].images[l], stamp(i, j, l));
      }
    }
  }

  /** `folder.file(path, ...)`: a path inside the chat's folder. */
  function InFolder(folder: string, path: string): string {
    folder + "/" + path
  }

  /** The image entries the folder receives for message j's images, in order. */
  function ImageEntries(imgs: seq<ImageRecord>, i: nat, j: nat, stamp: (nat, nat, nat) -> string, folder: string): seq<Entry> {
    if imgs == [] then []
    else
      var l := |imgs| - 1;
      ImageEntries(imgs[..l], i, j, stamp, folder)
        + if Qualifies(imgs[l]) then [Entry(InFolder(folder, "images/" + ImageFile(stamp(i, j, l), imgs[l])), Binary(imgs[l].data.value))] else []
  }

  /** The assignments to `metadata.images` for message j's images, in order. */
  function ImageAssigns(imgs: seq<ImageRecord>, i: nat, j: nat, stamp: (nat, nat, nat) -> string): seq<(string, ImageMeta)> {
    if imgs == [] then []
    else
      var l := |imgs| - 1;
      var file := if Qualifies(imgs[l]) then ImageFile(stamp(i, j, l), imgs[l]) else "";
      ImageAssigns(imgs[..l], i, j, stamp)
        + if Qualifies(imgs[l]) then [(file, ImageMeta("images/" + file, imgs[l].role, imgs[l].mimeType.value))] else []
  }

  /** How many of the images are packaged. */
  function CountImages(imgs: seq<ImageRecord>): nat {
    if imgs == [] then 0 else CountImages(imgs[..|imgs| - 1]) + if Qualifies(imgs[|imgs| - 1]) then 1 else 0
  }

  function MessageEntries(ms: seq<Message>, i: nat, stamp: (nat, nat, nat) -> string, folder: string): seq<Entry> {
    if ms == [] then [] else MessageEntries(ms[..|ms| - 1], i, stamp, folder) + ImageEntries(ms[|ms| - 1].images, i, |ms| - 1, stamp, folder)
  }

  function MessageAssigns(ms: seq<Message>, i: nat, stamp: (nat, nat, nat) -> string): seq<(string, ImageMeta)> {
    if ms == [] then [] else MessageAssigns(ms[..|ms| - 1], i, stamp) + ImageAssigns(ms[|ms| - 1].images, i, |ms| - 1, stamp)
  }

  function MessageCount(ms: seq<Message>): nat {
    if ms == [] then 0 else MessageCount(ms[..|ms| - 1]) + CountImages(ms[|ms| - 1].images)
  }

  /** One image file and one metadata entry per packaged image; each entry's `originalSrc` is the file's relative path. */
  lemma {:induction false} ImageBookkeeping(imgs: seq<ImageRecord>, i: nat, j: nat, stamp: (nat, nat, nat) -> string, folder: string)
    ensures |ImageEntries(imgs, i, j, stamp, folder)| == |ImageAssigns(imgs, i, j, stamp)| == CountImages(imgs)
    ensures forall k :: 0 <= k < |ImageAssigns(imgs, i, j, stamp)| ==>
      ImageAssigns(imgs, i, j, stamp)[k].1.originalSrc == "images/" + ImageAssigns(imgs, i, j, stamp)[k].0
    ensures forall k :: 0 <= k < |ImageEntries(imgs, i, j, stamp, folder)| ==>
      ImageEntries(imgs, i, j, stamp, folder)[k].path == InFolder(folder, "images/" + ImageAssigns(imgs, i, j, stamp)[k].0)
  {
    if imgs != [] {
      ImageBookkeeping(imgs[..|imgs| - 1], i, j, stamp, folder);
    }
  }

  /** The same across all messages of a chat. */
  lemma {:induction false} MessageBookkeeping(ms: seq<Message>, i: nat, stamp: (nat, nat, nat) -> string, folder: string)
    ensures |MessageEntries(ms, i, stamp, folder)| == |MessageAssigns(ms, i, stamp)| == MessageCount(ms)
    ensures forall k :: 0 <= k < |MessageAssigns(ms, i, stamp)| ==>
      MessageAssigns(ms, i, stamp)[k].1.originalSrc == "images/" + MessageAssigns(ms, i, stamp)[k].0
    ensures forall k :: 0 <= k < |MessageEntries(ms, i, stamp, folder)| ==>
      MessageEntries(ms, i, stamp, folder)[k].path == InFolder(folder, "images/" + MessageAssigns(ms, i, stamp)[k].0)
  {
    if ms != [] {
      var front := ms[..|ms| - 1];
      var last := ms[|ms| - 1];
      MessageBookkeeping(front, i, stamp, folder);
      ImageBookkeeping(last.images, i, |ms| - 1, stamp, folder);
      var a1: seq<(string, ImageMeta)> := MessageAssigns(front, i, stamp);
      var a2: seq<(string, ImageMeta)> := ImageAssigns(last.images, i, |ms| - 1, stamp);
      var e1: seq<Entry> := MessageEntries(front, i, stamp, folder);
      var e2: seq<Entry> := ImageEntries(last.images, i, |ms| - 1, stamp, folder);
      forall k | 0 <= k < |a1 + a2|
        ensures (a1 + a2)[k].1.originalSrc == "images/" + (a1 + a2)[k].0
        ensures (e1 + e2)[k].path == InFolder(folder, "images/" + (a1 + a2)[k].0)
      {
        if k >= |a1| {
          assert (a1 + a2)[k] == a2[k - |a1|];
          assert (e1 + e2)[k] == e2[k - |e1|];
        }
      }
    }
  }

  // ---------------------------------------------------------------------------
  // packageBatch
  // ---------------------------------------------------------------------------

  /** `chat_<index>_<sanitised title, or chat-<index>>`. */
  function ChatFolder(c: Chat): string {
    var index := IntToString(c.index);
    "chat_" + index + "_" + PopupUi.Sanitize(if c.title != "" then c.title else "chat-" + index)
  }

  /** The entries one chat adds to the archive. */
  function ChatEntries(c: Chat, i: nat, stamp: (nat, nat, nat) -> string, now: string): seq<Entry> {
    var folder := ChatFolder(c);
    [Entry(folder + "/", Directory)]
      + if c.messages == [] then []
        else
          var copy := RewriteChat(c, i, stamp);
          MessageEntries(c.messages, i, stamp, folder)
            + [Entry(folder + "/chat.json", ChatJson(copy)), Entry(folder + "/chat.md", MarkdownText(Markdown(copy, now)))]
  }

  /** The image assignments one chat adds to the metadata (none when it has no messages). */
  function ChatAssigns(c: Chat, i: nat, stamp: (nat, nat, nat) -> string): seq<(string, ImageMeta)> {
    if c.messages == [] then [] else MessageAssigns(c.messages, i, stamp)
  }

  function ChatImageCount(c: Chat): nat {
    if c.messages == [] then 0 else MessageCount(c.messages)
  }

  function AllEntries(chats: seq<Chat>, stamp: (nat, nat, nat) -> string, now: string): seq<Entry> {
    if chats == [] then [] else AllEntries(chats[..|chats| - 1], stamp, now) + ChatEntries(chats[|chats| - 1], |chats| - 1, stamp, now)
  }

  function AllAssigns(chats: seq<Chat>, stamp: (nat, nat, nat) -> string): seq<(string, ImageMeta)> {
    if chats == [] then [] else AllAssigns(chats[..|chats| - 1], stamp) + ChatAssigns(chats[|chats| - 1], |chats| - 1, stamp)
  }

  function ImageTotal(chats: seq<Chat>): nat {
    if chats == [] then 0 else ImageTotal(chats[..|chats| - 1]) + ChatImageCount(chats[|chats| - 1])
  }

  /** The whole archive: the chats' entries, then `metadata.json`. */
  function Archive(chats: seq<Chat>, startIndex: int, stamp: (nat, nat, nat) -> string, now: string): seq<Entry> {
    AllEntries(chats, stamp, now)
      + [Entry("metadata.json", MetadataJson(Metadata(now, startIndex, |chats|, SourceUrl, AllAssigns(chats, stamp))))]
  }

  /** Every image file's metadata records the file's relative path as its original source. */
  lemma {:induction false} MetadataPointsAtFiles(chats: seq<Chat>, stamp: (nat, nat, nat) -> string)
    ensures forall k :: 0 <= k < |AllAssigns(chats, stamp)| ==>
      AllAssigns(chats, stamp)[k].1.originalSrc == "images/" + AllAssigns(chats, stamp)[k].0
    ensures |AllAssigns(chats, stamp)| == ImageTotal(chats)
  {
    if chats != [] {
      var front := chats[..|chats| - 1];
      var c := chats[|chats| - 1];
      MetadataPointsAtFiles(front, stamp);
      MessageBookkeeping(c.messages, |chats| - 1, stamp, ChatFolder(c));
      var a1: seq<(string, ImageMeta)> := AllAssigns(front, stamp);
      var a2: seq<(string, ImageMeta)> := ChatAssigns(c, |chats| - 1, stamp);
      forall k | 0 <= k < |a1 + a2|
        ensures (a1 + a2)[k].1.originalSrc == "images/" + (a1 + a2)[k].0
      {
        if k >= |a1| {
          assert (a1 + a2)[k] == a2[k - |a1|];
        }
      }
    }
  }

  /** A packaged image in the copy points at exactly the path its metadata records. */
  lemma CopyMatchesMetadata(img: ImageRecord, stamp: string)
    requires Qualifies(img)
    ensures RewriteImage(img, stamp).src == Some(ImageMeta("images/" + ImageFile(stamp, img), img.role, img.mimeType.value).originalSrc)
    ensures RewriteImage(img, stamp).data.None?
  {
  }

  /** The images of one message: the loop rewriting the copy and adding files and metadata. */
  method PackImages(imgs: seq<ImageRecord>, i: nat, j: nat, stamp: (nat, nat, nat) -> string, folder: string)
    returns (copy: seq<ImageRecord>, files: seq<Entry>, assigns: seq<(string, ImageMeta)>, count: nat)
    ensures copy == RewriteImages(imgs, i, j, stamp)
    ensures files == ImageEntries(imgs, i, j, stamp, folder)
    ensures assigns == ImageAssigns(imgs, i, j, stamp)
    ensures count == CountImages(imgs)
  {
    copy, files, assigns, count := [], [], [], 0;
    for l := 0 to |imgs|
      invariant |copy| == l && forall k :: 0 <= k < l ==> copy[k] == RewriteImage(imgs[k], stamp(i, j, k))
      invariant files == ImageEntries(imgs[..l], i, j, stamp, folder)
      invariant assigns == ImageAssigns(imgs[..l], i, j, stamp)
      invariant count == CountImages(imgs[..l])
    {
      assert imgs[..l + 1][..l] == imgs[..l];
      var img := imgs[l];
      if img.data.Some? && Truthy(img.mimeType) {
        count := count + 1;
        var file := ImageFile(stamp(i, j, l), img);
        var relativePath := "images/" + file;
        files := files + [Entry(InFolder(folder, relativePath), Binary(img.data.value))];
        img := img.(data := None, src := Some(relativePath));
        assigns := assigns + [(file, ImageMeta(img.src.value, img.role, img.mimeType.value))];
      }
      copy := copy + [img];
    }
    assert imgs[..|imgs|] == imgs;
  }

  /** The messages of one chat. */
  method PackMessages(ms: seq<Message>, i: nat, stamp: (nat, nat, nat) -> string, folder: string)
    returns (copy: seq<Message>, files: seq<Entry>, assigns: seq<(string, ImageMeta)>, count: nat)
    ensures copy == RewriteMessages(ms, i, stamp)
    ensures files == MessageEntries(ms, i, stamp, folder)
    ensures assigns == MessageAssigns(ms, i, stamp)
    ensures count == MessageCount(ms)
  {
    copy, files, assigns, count := [], [], [], 0;
    for j := 0 to |ms|
      invariant |copy| == j && forall k :: 0 <= k < j ==> copy[k] == ms[k].(images := RewriteImages(ms[k].images, i, k, stamp))
      invariant files == MessageEntries(ms[..j], i, stamp, folder)
      invariant assigns == MessageAssigns(ms[..j], i, stamp)
      invariant count == MessageCount(ms[..j])
    {
      assert ms[..j + 1][..j] == ms[..j];
      var images, f, a, n := PackImages(ms[j].images, i, j, stamp, folder);
      copy := copy + [ms[j].(images := images)];
      files := files + f;
      assigns := assigns + a;
      count := count + n;
    }
    assert ms[..|ms|] == ms;
  }

  /** The entries, image assignments and image count of one chat. */
  method PackChat(c: Chat, i: nat, stamp: (nat, nat, nat) -> string, now: string)
    returns (entries: seq<Entry>, assigns: seq<(string, ImageMeta)>, count: nat)
    ensures entries == ChatEntries(c, i, stamp, now)
    ensures assigns == ChatAssigns(c, i, stamp)
    ensures count == ChatImageCount(c)
  {
    var folder := ChatFolder(c);
    entries := [Entry(folder + "/", Directory)];
    assigns, count := [], 0;
    if c.messages != [] {
      var messages, files, a, n := PackMessages(c.messages, i, stamp, folder);
      var copy := c.(messages := messages);
      var md := GenerateMarkdown(copy, now);
      entries := entries + files + [Entry(folder + "/chat.json", ChatJson(copy)), Entry(folder + "/chat.md", MarkdownText(md))];
      assigns, count := a, n;
    }
  }

  /** The loop over the chats of a batch: each chat's folder, images, JSON and Markdown, in order. */
  method PackChats(chats: seq<Chat>, stamp: (nat, nat, nat) -> string, now: string)
    returns (entries: seq<Entry>, images: seq<(string, ImageMeta)>, imageCount: nat)
    ensures entries == AllEntries(chats, stamp, now)
    ensures images == AllAssigns(chats, stamp)
    ensures imageCount == ImageTotal(chats)
  {
    entries, images, imageCount := [], [], 0;
    for i := 0 to |chats|
      invariant entries == AllEntries(chats[..i], stamp, now)
      invariant images == AllAssigns(chats[..i], stamp)
      invariant imageCount == ImageTotal(chats[..i])
    {
      assert chats[..i + 1][..i] == chats[..i];
      var e, a, n := PackChat(chats[i], i, stamp, now);
      entries := entries + e;
      images := images + a;
      imageCount := imageCount + n;
    }
    assert chats[..|chats|] == chats;
  }

  /**
    packageBatch: nothing for an empty batch; otherwise the archive, named after the batch's
    start index, size and time, which is listed first among the downloads.
   */
  method PackageBatch(chats: seq<Chat>, startIndex: int, now: string, stamp: (nat, nat, nat) -> string, downloads: seq<Transfer.BatchInfo>)
    returns (outcome: PackageOutcome, newDownloads: seq<Transfer.BatchInfo>)
    ensures chats == [] ==> outcome == NothingToPackage && newDownloads == downloads
    ensures chats != [] ==>
      && outcome == Packaged(Filenames.BatchFilename(startIndex, |chats|, Filenames.Timestamp(now)),
                             Archive(chats, startIndex, stamp, now), |chats|, ImageTotal(chats))
      && newDownloads == [Transfer.BatchInfo(outcome.filename, |chats|, ImageTotal(chats), now)] + downloads
  {
    if chats == [] {
      return NothingToPackage, downloads;
    }
    var chatCount := |chats|;
    var filename := Filenames.BatchFilename(startIndex, chatCount, Filenames.Timestamp(now));
    var entries, images, imageCount := PackChats(chats, stamp, now);
    entries := entries + [Entry("metadata.json", MetadataJson(Metadata(now, startIndex, chatCount, SourceUrl, images)))];
    outcome := Packaged(filename, entries, chatCount, imageCount);
    newDownloads := [Transfer.BatchInfo(filename, chatCount, imageCount, now)] + downloads;
  }

  // ---------------------------------------------------------------------------
  // generateMarkdown
  // ---------------------------------------------------------------------------

  const UntitledChat := "Untitled Chat"
  const Rule := "---\n\n"

  /** The title line, the time line and the first rule. */
  function Header(c: Chat, now: string): string {
    ("# " + (if c.title != "" then c.title else UntitledChat) + "\n\n")
      + ("*Scraped at: " + (if c.timestamp != "" then c.timestamp else now) + "*\n\n")
      + Rule
  }

  /** `![Image](src)` for each image that has a `src`. */
  function ImageLines(imgs: seq<ImageRecord>): string {
    if imgs == [] then ""
    else
      var img := imgs[|imgs| - 1];
      ImageLines(imgs[..|imgs| - 1]) + if Truthy(img.src) then ImageLine(img.src.value) else ""
  }

  function ImageLine(src: string): string {
    "![Image](" + src + ")\n\n"
  }

  /** The heading of a message's section and its text, if any. */
  function Opening(m: Message): string {
    ("## " + RoleName(m) + "\n\n") + (if m.text != "" then m.text + "\n\n" else "")
  }

  function RoleName(m: Message): string {
    if m.role == "user" then "User" else "Gemini"
  }

  /** The section of one message. */
  function Section(m: Message): string {
    Opening(m) + ImageLines(m.images) + Rule
  }

  function Sections(ms: seq<Message>): string {
    if ms == [] then "" else Sections(ms[..|ms| - 1]) + Section(ms[|ms| - 1])
  }

  function Markdown(c: Chat, now: string): string {
    Header(c, now) + Sections(c.messages)
  }

  /** Each section opens with the speaker's heading and closes with a rule. */
  lemma SectionShape(m: Message)
    ensures Section(m)[..3] == "## "
    ensures var h := "## " + RoleName(m); Section(m)[..|h|] == h
    ensures |Section(m)| >= |Rule| && Section(m)[|Section(m)| - |Rule|..] == Rule
  {
  }

  /**
    One section per message, in order: the rendering of a chat with one more message is the
    earlier rendering followed by that message's section.
   */
  lemma MarkdownAppend(c: Chat, m: Message, now: string)
    ensures Markdown(c.(messages := c.messages + [m]), now) == Markdown(c, now) + Section(m)
  {
    var ms := c.messages + [m];
    assert ms[..|ms| - 1] == c.messages;
    assert Sections(ms) == Sections(c.messages) + Section(m);
    Assoc(Header(c, now), Sections(c.messages), Section(m));
  }

  /** A message's section names the image of every image with a source, in order. */
  lemma {:induction false} ImageLinesAppend(imgs: seq<ImageRecord>, src: string, img: ImageRecord)
    requires img.src == Some(src) && src != ""
    ensures ImageLines(imgs + [img]) == ImageLines(imgs) + ImageLine(src)
  {
    assert (imgs + [img])[..|imgs|] == imgs;
  }

  lemma Assoc(a: string, b: string, c: string)
    ensures (a + b) + c == a + (b + c)
  {
  }

  /** The inner `md +=` loop: one image line per image with a source. */
  method AppendImageLines(md0: string, imgs: seq<ImageRecord>) returns (md: string)
    ensures md == md0 + ImageLines(imgs)
  {
    md := md0;
    for l := 0 to |imgs|
      invariant md == md0 + ImageLines(imgs[..l])
    {
      assert imgs[..l + 1][..l] == imgs[..l];
      var img := imgs[l];
      if Truthy(img.src) {
        Assoc(md0, ImageLines(imgs[..l]), ImageLine(img.src.value));
        md := md + ("![Image](" + img.src.value + ")\n\n");
      }
    }
    assert imgs[..|imgs|] == imgs;
  }

  /** The body of the `md +=` loop over the messages: the section of one message. */
  method AppendSection(md0: string, msg: Message) returns (md: string)
    ensures md == md0 + Section(msg)
  {
    var role := if msg.role == "user" then "User" else "Gemini";
    md := md0 + ("## " + role + "\n\n");
    if msg.text != "" {
      Assoc(md0, "## " + role + "\n\n", msg.text + "\n\n");
      md := md + (msg.text + "\n\n");
    }
    md := AppendImageLines(md, msg.images);
    Assoc(md0, Opening(msg), ImageLines(msg.images));
    Assoc(md0, Opening(msg) + ImageLines(msg.images), Rule);
    md := md + Rule;
  }

  /** The sections of the first j + 1 messages. */
  lemma SectionsStep(ms: seq<Message>, j: nat)
    requires j < |ms|
    ensures Sections(ms[..j + 1]) == Sections(ms[..j]) + Section(ms[j])
  {
    assert ms[..j + 1][..j] == ms[..j];
  }

  /** `generateMarkdown`: the header, then the section of every message in order. */
  method GenerateMarkdown(c: Chat, now: string) returns (md: string)
    ensures md == Markdown(c, now)
  {
    md := "# " + (if c.title != "" then c.title else UntitledChat) + "\n\n";
    md := md + ("*Scraped at: " + (if c.timestamp != "" then c.timestamp else now) + "*\n\n");
    md := md + Rule;
    for j := 0 to |c.messages|
      invariant md == Header(c, now) + Sections(c.messages[..j])
    {
      md := AppendSection(md, c.messages[j]);
      SectionsStep(c.messages, j);
      Assoc(Header(c, now), Sections(c.messages[..j]), Section(c.messages[j]));
    }
    assert c.messages[..|c.messages|] == c.messages;
  }
}
