/**
 * The content extractor: `GmailPostman.parse_parts` as a specification.
 * `WalkParts` gives, for a list of sibling parts, the content bundle the
 * source builds, the files it writes, and the error it raises if any.  The
 * lemmas show that the walk is the post-order listing of the part tree
 * (children before their parent, siblings in order) followed part by part,
 * and characterise what each kind of part contributes.
 */
module Extractor {
  import opened Wrappers
  import opened GmailApi
  import opened Records

  /** What the walk reads besides the parts: the destination folder, the download flag, the decoders and the message's attachments. */
  datatype Env = Env(folder: string, download: bool, codec: Codec, attachments: map<string, string>)

  /**
   * The effect of walking some parts: the bundle built, the files written
   * in order, and the error raised, if any.  After an error the bundle is
   * of no use (the source raises), but the files written before it stay.
   */
  datatype Walk = Walk(contents: Contents, writes: seq<FileWrite>, failure: Option<Error>)

  const Nothing := Walk(NoContents, [], None)

  function Fail(writes: seq<FileWrite>, e: Error): Walk
  {
    Walk(NoContents, writes, Some(e))
  }

  /** A walk that raised nothing wrote exactly one file per HTML path and attachment path it lists. */
  predicate OneWritePerFile(w: Walk)
  {
    w.failure.None? ==> |w.writes| == |w.contents.htmls| + |w.contents.attachments|
  }

  /** `a` and then `b`; `b` does not run when `a` raised. */
  function Then(a: Walk, b: Walk): Walk
  {
    if a.failure.Some? then a
    else Walk(Cat(a.contents, b.contents), a.writes + b.writes, b.failure)
  }

  /** Whether `sub` occurs in `s` starting at index `i`. */
  predicate OccursAt(s: string, sub: string, i: int)
  {
    0 <= i <= |s| - |sub| && s[i..i + |sub|] == sub
  }

  /** Python's `sub in s` on strings: `s` starts with `sub`, or its tail contains it. */
  predicate Contains(s: string, sub: string)
    decreases |s|
  {
    |sub| <= |s| && (s[..|sub|] == sub || Contains(s[1..], sub))
  }

  /** `sub in s` holds exactly when `sub` occurs in `s` at some index. */
  lemma {:induction false} ContainsOccurs(s: string, sub: string)
    ensures Contains(s, sub) <==> exists i :: OccursAt(s, sub, i)
    decreases |s|
  {
    if |sub| <= |s| {
      if s[..|sub|] == sub {
        assert OccursAt(s, sub, 0);
      } else {
        ContainsOccurs(s[1..], sub);
        if Contains(s[1..], sub) {
          var i :| OccursAt(s[1..], sub, i);
          assert s[1..][i..i + |sub|] == s[i + 1..i + 1 + |sub|];
          assert OccursAt(s, sub, i + 1);
        }
        if exists i :: OccursAt(s, sub, i) {
          var i :| OccursAt(s, sub, i);
          assert i != 0;
          assert s[1..][i - 1..i - 1 + |sub|] == s[i..i + |sub|];
          assert OccursAt(s[1..], sub, i - 1);
        }
      }
    }
  }

  /** A header that asks for the part to be saved: named exactly `Content-Disposition`, with "attachment" in its value (RFC 2183). */
  predicate IsAttachmentHeader(h: Header)
  {
    h.name == "Content-Disposition" && Contains(h.value, "attachment")
  }

  /** The text of a `text/plain` part: "" when there is no data, else the decoded data. */
  function PlainText(data: Option<string>, codec: Codec): Result<string, Error>
  {
    match data
    case None => Ok("")
    case Some(d) =>
      if d == "" then Ok("")
      else match codec.b64(d)
        case None => Err(DecodeError)
        case Some(bs) =>
          match codec.utf8(bs)
          case None => Err(DecodeError)
          case Some(t) => Ok(t)
  }

  /** `urlsafe_b64decode(data)`, which raises on None as well as on malformed input. */
  function Base64(data: Option<string>, codec: Codec): Result<Bytes, Error>
  {
    match data
    case None => Err(DecodeError)
    case Some(d) =>
      match codec.b64(d)
      case None => Err(DecodeError)
      case Some(bs) => Ok(bs)
  }

  /** Where an HTML part is saved: its file name, or "index.html" when it has none, under the folder. */
  function HtmlPath(p: Part, folder: string): string
  {
    PathJoin(folder, if p.filename == "" then "index.html" else p.filename)
  }

  /** Where an attachment is saved. */
  function AttachmentPath(p: Part, folder: string): string
  {
    PathJoin(folder, p.filename)
  }

  /** One header of a part of another type: a matching header fetches the attachment and, when its data is non-empty, saves it. */
  function AttachmentStep(h: Header, p: Part, env: Env): (w: Walk)
    ensures OneWritePerFile(w) && w.contents.texts == [] && w.contents.htmls == []
  {
    if IsAttachmentHeader(h) && env.download then
      match p.body.attachmentId
      case None => Fail([], NotFound("attachment"))
      case Some(aid) =>
        if aid !in env.attachments then Fail([], NotFound(aid))
        else
          var data := env.attachments[aid];
          var path := AttachmentPath(p, env.folder);
          if data == "" then Nothing
          else match env.codec.b64(data)
            case None => Fail([FileWrite(path, Raw([]))], DecodeError)
            case Some(bs) => Walk(Contents([], [], [path]), [FileWrite(path, Raw(bs))], None)
    else Nothing
  }

  /** The header loop of a part of another type, header by header. */
  function AttachmentScan(hs: seq<Header>, p: Part, env: Env): (w: Walk)
    ensures OneWritePerFile(w)
  {
    if hs == [] then Nothing
    else Then(AttachmentScan(hs[..|hs| - 1], p, env), AttachmentStep(hs[|hs| - 1], p, env))
  }

  /** What a part contributes itself, apart from its nested parts. */
  function Own(p: Part, env: Env): (w: Walk)
    ensures OneWritePerFile(w)
  {
    if p.mimeType == "text/plain" then
      match PlainText(p.body.data, env.codec)
      case Ok(t) => Walk(Contents([t], [], []), [], None)
      case Err(e) => Fail([], e)
    else if p.mimeType == "text/html" then
      var path := HtmlPath(p, env.folder);
      match Base64(p.body.data, env.codec)
      case Ok(bs) => Walk(Contents([], [path], []), [FileWrite(path, Raw(bs))], None)
      case Err(e) => Fail([FileWrite(path, Raw([]))], e)
    else
      match p.headers
      case None => Fail([], NotIterable)
      case Some(hs) => AttachmentScan(hs, p, env)
  }

  /** One part: its nested parts first, when it has any, then its own contribution. */
  function WalkPart(p: Part, env: Env): (w: Walk)
    ensures OneWritePerFile(w)
    decreases p, 1
  {
    var nested := if p.parts != [] then WalkParts(p.parts, env) else Nothing;
    Then(nested, Own(p, env))
  }

  /** `parse_parts(parts, ...)`: the siblings in order. */
  function WalkParts(ps: seq<Part>, env: Env): (w: Walk)
    ensures OneWritePerFile(w)
    decreases ps, 0
  {
    if ps == [] then Nothing
    else Then(WalkParts(ps[..|ps| - 1], env), WalkPart(ps[|ps| - 1], env))
  }

  // ---------------------------------------------------------------------
  // An independent reading of the walk: the parts of the tree in post-order,
  // each contributing its own entry.

  /** The parts of a forest in post-order: each part's nested parts, then the part; siblings in order. */
  function PostOrder(ps: seq<Part>): seq<Part>
  {
    if ps == [] then []
    else PostOrder(ps[..|ps| - 1]) + PostOrder(ps[|ps| - 1].parts) + [ps[|ps| - 1]]
  }

  /** The parts of a flat list, each contributing its own entry, in order. */
  function FlatWalk(ns: seq<Part>, env: Env): Walk
  {
    if ns == [] then Nothing else Then(FlatWalk(ns[..|ns| - 1], env), Own(ns[|ns| - 1], env))
  }

  /** The text a `text/plain` part contributes when its decoding succeeds. */
  function TextOf(p: Part, env: Env): string
  {
    match PlainText(p.body.data, env.codec)
    case Ok(t) => t
    case Err(_) => ""
  }

  /** The texts of the `text/plain` parts of a list, in order. */
  function Texts(ns: seq<Part>, env: Env): seq<string>
  {
    if ns == [] then []
    else
      var last := ns[|ns| - 1];
      Texts(ns[..|ns| - 1], env) + (if last.mimeType == "text/plain" then [TextOf(last, env)] else [])
  }

  /** The saved paths of the `text/html` parts of a list, in order. */
  function Htmls(ns: seq<Part>, env: Env): seq<string>
  {
    if ns == [] then []
    else
      var last := ns[|ns| - 1];
      Htmls(ns[..|ns| - 1], env) + (if last.mimeType == "text/html" then [HtmlPath(last, env.folder)] else [])
  }

  predicate IsOtherType(p: Part)
  {
    p.mimeType != "text/plain" && p.mimeType != "text/html"
  }

  /** The number of headers of a list that ask for an attachment. */
  function CountAttachmentHeaders(hs: seq<Header>): nat
  {
    if hs == [] then 0
    else CountAttachmentHeaders(hs[..|hs| - 1]) + (if IsAttachmentHeader(hs[|hs| - 1]) then 1 else 0)
  }

  /** Whether the attachment of a part, once fetched, has data to save. */
  predicate HasAttachmentData(p: Part, env: Env)
  {
    p.body.attachmentId.Some? && p.body.attachmentId.value in env.attachments
    && env.attachments[p.body.attachmentId.value] != ""
  }

  /** The attachment paths one part of another type contributes: one per matching header, when downloads are on and there is data. */
  function AttachmentPathsOf(p: Part, env: Env): seq<string>
  {
    if IsOtherType(p) && p.headers.Some? && env.download && HasAttachmentData(p, env)
    then Repeat(AttachmentPath(p, env.folder), CountAttachmentHeaders(p.headers.value))
    else []
  }

  /** The attachment paths of a list of parts, in order. */
  function Attachments(ns: seq<Part>, env: Env): seq<string>
  {
    if ns == [] then [] else Attachments(ns[..|ns| - 1], env) + AttachmentPathsOf(ns[|ns| - 1], env)
  }

  // ---------------------------------------------------------------------
  // Lemmas

  lemma ThenAssociative(a: Walk, b: Walk, c: Walk)
    ensures Then(Then(a, b), c) == Then(a, Then(b, c))
  {
  }

  lemma ThenNothing(a: Walk)
    ensures Then(Nothing, a) == a && Then(a, Nothing) == a
  {
  }

  /** Walking a concatenation is walking one list and then the other. */
  lemma {:induction false} FlatWalkAppend(a: seq<Part>, b: seq<Part>, env: Env)
    ensures FlatWalk(a + b, env) == Then(FlatWalk(a, env), FlatWalk(b, env))
  {
    if b == [] {
      assert a + b == a;
      ThenNothing(FlatWalk(a, env));
    } else {
      var b' := b[..|b| - 1];
      assert (a + b)[..|a + b| - 1] == a + b';
      FlatWalkAppend(a, b', env);
      ThenAssociative(FlatWalk(a, env), FlatWalk(b', env), Own(b[|b| - 1], env));
    }
  }

  lemma {:induction false} PostOrderAppend(a: seq<Part>, b: seq<Part>)
    ensures PostOrder(a + b) == PostOrder(a) + PostOrder(b)
    decreases b
  {
    if b == [] {
      assert a + b == a;
    } else {
      var b' := b[..|b| - 1];
      assert (a + b)[..|a + b| - 1] == a + b';
      PostOrderAppend(a, b');
    }
  }

  /** A part's walk is its subtree's post-order walked part by part. */
  lemma {:induction false} WalkPartIsFlat(p: Part, env: Env)
    ensures WalkPart(p, env) == FlatWalk(PostOrder(p.parts) + [p], env)
    decreases p, 1
  {
    var ns := PostOrder(p.parts) + [p];
    assert ns[..|ns| - 1] == PostOrder(p.parts);
    if p.parts != [] {
      WalkPartsIsFlat(p.parts, env);
    } else {
      ThenNothing(Own(p, env));
    }
  }

  /**
   * `parse_parts` follows the post-order of the part tree: the walk of a
   * forest, writes and errors included, is the walk of its post-order
   * listing where each part contributes only its own entry.
   */
  lemma {:induction false} WalkPartsIsFlat(ps: seq<Part>, env: Env)
    ensures WalkParts(ps, env) == FlatWalk(PostOrder(ps), env)
    decreases ps, 0
  {
    if ps != [] {
      var init, last := ps[..|ps| - 1], ps[|ps| - 1];
      WalkPartsIsFlat(init, env);
      WalkPartIsFlat(last, env);
      FlatWalkAppend(PostOrder(init), PostOrder(last.parts) + [last], env);
      assert PostOrder(ps) == PostOrder(init) + (PostOrder(last.parts) + [last]);
    }
  }

  /** Sibling order: the parts of `a` contribute before the parts of `b`, and `b` is not walked if `a` raised. */
  lemma SiblingsInOrder(a: seq<Part>, b: seq<Part>, env: Env)
    ensures WalkParts(a + b, env) == Then(WalkParts(a, env), WalkParts(b, env))
  {
    WalkPartsIsFlat(a + b, env);
    WalkPartsIsFlat(a, env);
    WalkPartsIsFlat(b, env);
    PostOrderAppend(a, b);
    FlatWalkAppend(PostOrder(a), PostOrder(b), env);
  }

  /** Nested parts first: a part's bundle is its nested parts' bundle followed by its own entry. */
  lemma NestedBeforeOwn(p: Part, env: Env)
    ensures WalkPart(p, env) == Then(WalkParts(p.parts, env), Own(p, env))
  {
  }

  /** A flat walk succeeds exactly when every part's own step does. */
  lemma {:induction false} FlatWalkSucceeds(ns: seq<Part>, env: Env)
    ensures FlatWalk(ns, env).failure.None? <==> forall i :: 0 <= i < |ns| ==> Own(ns[i], env).failure.None?
  {
    if ns != [] {
      FlatWalkSucceeds(ns[..|ns| - 1], env);
    }
  }

  /** The attachment loop of one part, when it raises nothing, saves one path per matching header when downloads are on and there is data. */
  lemma {:induction false} AttachmentScanContents(hs: seq<Header>, p: Part, env: Env)
    requires AttachmentScan(hs, p, env).failure.None?
    ensures AttachmentScan(hs, p, env).contents ==
      Contents([], [], if env.download && HasAttachmentData(p, env)
                       then Repeat(AttachmentPath(p, env.folder), CountAttachmentHeaders(hs))
                       else [])
  {
    if hs != [] {
      AttachmentScanContents(hs[..|hs| - 1], p, env);
    }
  }

  /**
   * A part of another type adds nothing and raises nothing when it has no
   * matching header, when downloads are off, or when its attachment is
   * fetched but its data is empty.
   */
  lemma {:induction false} AttachmentScanSkips(hs: seq<Header>, p: Part, env: Env)
    requires || !env.download || CountAttachmentHeaders(hs) == 0
             || (p.body.attachmentId.Some? && p.body.attachmentId.value in env.attachments
                 && env.attachments[p.body.attachmentId.value] == "")
    ensures AttachmentScan(hs, p, env) == Nothing
  {
    if hs != [] {
      AttachmentScanSkips(hs[..|hs| - 1], p, env);
    }
  }

  /** What one part contributes on its own, by MIME type, when it raises nothing. */
  lemma OwnContents(p: Part, env: Env)
    requires Own(p, env).failure.None?
    ensures Own(p, env).contents ==
      Contents(if p.mimeType == "text/plain" then [TextOf(p, env)] else [],
               if p.mimeType == "text/html" then [HtmlPath(p, env.folder)] else [],
               AttachmentPathsOf(p, env))
  {
    if IsOtherType(p) {
      AttachmentScanContents(p.headers.value, p, env);
    }
  }

  /** A flat walk that raises nothing has the texts, HTML paths and attachment paths of its parts, in order. */
  lemma {:induction false} FlatWalkContents(ns: seq<Part>, env: Env)
    requires FlatWalk(ns, env).failure.None?
    ensures FlatWalk(ns, env).contents == Contents(Texts(ns, env), Htmls(ns, env), Attachments(ns, env))
  {
    if ns != [] {
      var init := ns[..|ns| - 1];
      FlatWalkContents(init, env);
      OwnContents(ns[|ns| - 1], env);
    }
  }

  /**
   * The extractor's contract: `parse_parts` raises nothing exactly when no
   * part of the tree raises on its own, and then its bundle lists, in the
   * tree's post-order, one text per `text/plain` part, one saved path per
   * `text/html` part and one attachment path per matching header of the
   * other parts.
   */
  lemma ExtractionSummary(ps: seq<Part>, env: Env)
    ensures var w := WalkParts(ps, env); var ns := PostOrder(ps);
      && (w.failure.None? <==> forall i :: 0 <= i < |ns| ==> Own(ns[i], env).failure.None?)
      && (w.failure.None? ==> w.contents == Contents(Texts(ns, env), Htmls(ns, env), Attachments(ns, env)))
  {
    WalkPartsIsFlat(ps, env);
    FlatWalkSucceeds(PostOrder(ps), env);
    if WalkParts(ps, env).failure.None? {
      FlatWalkContents(PostOrder(ps), env);
    }
  }
}
