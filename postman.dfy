/**
 * `GmailPostman` (gmail_collector/gmail_postman.py): paginated search, the
 * part walk and the materialisation of one message.  The Gmail API is the
 * `mailbox` the object is built over plus the pages a search is answered
 * with; the filesystem is the set of existing `folders` and the log of
 * `written` files.
 */
module Postman {
  import opened Wrappers
  import opened GmailApi
  import opened Records
  import opened Extractor

  /** `GmailPostman_Attr`, without the account and credential fields that only authentication reads. */
  datatype PostmanAttr = PostmanAttr(mailDumpFolder: string, metadataDumpFolder: string, downloadAttachments: bool)

  // ---------------------------------------------------------------------
  // clean

  /** `clean(text)`: every character that is not alphanumeric becomes '_'. */
  function Clean(text: string, isAlnum: char -> bool): (r: string)
    ensures |r| == |text|
    ensures forall i :: 0 <= i < |text| ==> r[i] == if isAlnum(text[i]) then text[i] else '_'
  {
    if text == [] then []
    else
      var c := text[|text| - 1];
      Clean(text[..|text| - 1], isAlnum) + [if isAlnum(c) then c else '_']
  }

  /** Cleaning twice is cleaning once, since '_' is not alphanumeric. */
  lemma CleanIdempotent(text: string, isAlnum: char -> bool)
    requires !isAlnum('_')
    ensures Clean(Clean(text, isAlnum), isAlnum) == Clean(text, isAlnum)
  {
    var once := Clean(text, isAlnum);
    var twice := Clean(once, isAlnum);
    assert forall i :: 0 <= i < |once| ==> twice[i] == once[i];
  }

  // ---------------------------------------------------------------------
  // search_messages

  /** A page's references; a page without a `messages` key has none. */
  function PageMessages(p: Page): seq<MessageRef>
  {
    if p.messages.Some? then p.messages.value else []
  }

  /** The references of some pages, page after page. */
  function Collected(pages: seq<Page>): seq<MessageRef>
  {
    if pages == [] then [] else Collected(pages[..|pages| - 1]) + PageMessages(pages[|pages| - 1])
  }

  /** Some response carries no continuation token, so the search ends. */
  predicate Ends(pages: seq<Page>)
  {
    exists i :: 0 <= i < |pages| && pages[i].nextPageToken.None?
  }

  /** The index of the first response without a continuation token: the last page a search reads. */
  function LastPage(pages: seq<Page>): (n: nat)
    requires Ends(pages)
    ensures n < |pages| && pages[n].nextPageToken.None?
    ensures forall j :: 0 <= j < n ==> pages[j].nextPageToken.Some?
  {
    if pages[0].nextPageToken.None? then 0
    else
      var i :| 0 <= i < |pages| && pages[i].nextPageToken.None?;
      assert pages[1..][i - 1] == pages[i];
      1 + LastPage(pages[1..])
  }

  /** Collecting two runs of pages is collecting each; so a page without `messages` adds nothing. */
  lemma {:induction false} CollectedAppend(a: seq<Page>, b: seq<Page>)
    ensures Collected(a + b) == Collected(a) + Collected(b)
  {
    if b == [] {
      assert a + b == a;
    } else {
      assert (a + b)[..|a + b| - 1] == a + b[..|b| - 1];
      CollectedAppend(a, b[..|b| - 1]);
    }
  }

  // ---------------------------------------------------------------------
  // The header scan of read_message

  function LowerChar(c: char): char
  {
    if 'A' <= c <= 'Z' then (c as int - 'A' as int + 'a' as int) as char else c
  }

  /**
   * `name.lower()`, on ASCII letters.  Compared with "from", "to",
   * "subject" and "date" it agrees with Python's full lowercasing: no
   * other character lowercases to one of their letters.
   */
  function LowerAscii(s: string): (r: string)
    ensures |r| == |s| && forall i :: 0 <= i < |s| ==> r[i] == LowerChar(s[i])
  {
    seq(|s|, i requires 0 <= i < |s| => LowerChar(s[i]))
  }

  predicate Named(h: Header, key: string)
  {
    LowerAscii(h.name) == key
  }

  /** The value of the last header named `key` (ignoring case), if any: the one a dictionary assignment keeps. */
  function LastValue(hs: seq<Header>, key: string): Option<string>
  {
    if hs == [] then None
    else if Named(hs[|hs| - 1], key) then Some(hs[|hs| - 1].value)
    else LastValue(hs[..|hs| - 1], key)
  }

  /** The number of headers named `key`, ignoring case. */
  function CountNamed(hs: seq<Header>, key: string): nat
  {
    if hs == [] then 0
    else CountNamed(hs[..|hs| - 1], key) + (if Named(hs[|hs| - 1], key) then 1 else 0)
  }

  /**
   * The state of the header loop: the metadata entries recorded so far, the
   * folders that exist, and the error raised, if any.
   */
  datatype Scan = Scan(
    from: Option<string>,
    to: Option<string>,
    subject: Option<string>,
    date: Option<string>,
    folders: set<string>,
    failure: Option<Error>)

  /** One header: record it, and for a subject create the message's folder, which raises if the folder exists. */
  function ScanStep(sc: Scan, h: Header, folder: string): Scan
  {
    if sc.failure.Some? then sc
    else if Named(h, "from") then sc.(from := Some(h.value))
    else if Named(h, "to") then sc.(to := Some(h.value))
    else if Named(h, "subject") then
      if folder in sc.folders then sc.(failure := Some(FolderExists(folder)))
      else sc.(folders := sc.folders + {folder}, subject := Some(h.value))
    else if Named(h, "date") then sc.(date := Some(h.value))
    else sc
  }

  /** The header loop of `read_message` over `hs`, creating `folder` at each subject header. */
  function ScanHeaders(hs: seq<Header>, folder: string, folders: set<string>): (sc: Scan)
    ensures sc.folders == folders || sc.folders == folders + {folder}
    ensures sc.subject.Some? ==> folder !in folders && folder in sc.folders
  {
    if hs == [] then Scan(None, None, None, None, folders, None)
    else ScanStep(ScanHeaders(hs[..|hs| - 1], folder, folders), hs[|hs| - 1], folder)
  }

  /**
   * The header loop fails exactly when a second subject header arrives, or
   * the first finds the folder already there; otherwise every entry is the
   * last header of its name and the folder exists once a subject was seen.
   */
  lemma {:induction false} ScanHeadersOutcome(hs: seq<Header>, folder: string, folders: set<string>)
    ensures var sc := ScanHeaders(hs, folder, folders); var n := CountNamed(hs, "subject");
      && (sc.failure.Some? <==> n >= 2 || (n == 1 && folder in folders))
      && (sc.failure.Some? ==> sc.failure == Some(FolderExists(folder)) && sc.folders == folders + {folder})
      && (sc.failure.None? ==>
            && sc.from == LastValue(hs, "from") && sc.to == LastValue(hs, "to")
            && sc.subject == LastValue(hs, "subject") && sc.date == LastValue(hs, "date")
            && sc.folders == (if n == 0 then folders else folders + {folder}))
  {
    if hs != [] {
      var init := hs[..|hs| - 1];
      ScanHeadersOutcome(init, folder, folders);
      if CountNamed(init, "subject") == 0 {
        NoneNamed(init, "subject");
      }
    }
  }

  lemma {:induction false} NoneNamed(hs: seq<Header>, key: string)
    requires CountNamed(hs, key) == 0
    ensures LastValue(hs, key) == None
  {
    if hs != [] {
      NoneNamed(hs[..|hs| - 1], key);
    }
  }

  /** Once the header loop has raised, later headers change nothing. */
  lemma {:induction false} ScanFailureSticks(hs: seq<Header>, k: nat, folder: string, folders: set<string>)
    requires k <= |hs| && ScanHeaders(hs[..k], folder, folders).failure.Some?
    ensures ScanHeaders(hs, folder, folders) == ScanHeaders(hs[..k], folder, folders)
    decreases |hs| - k
  {
    if k < |hs| {
      assert hs[..k + 1][..k] == hs[..k];
      ScanFailureSticks(hs, k + 1, folder, folders);
    } else {
      assert hs[..k] == hs;
    }
  }

  /** The header loop over the first `i + 1` headers is the loop over the first `i` and then header `i`. */
  lemma ScanHeadersSnoc(hs: seq<Header>, i: nat, folder: string, folders: set<string>)
    requires i < |hs|
    ensures ScanHeaders(hs[..i + 1], folder, folders) == ScanStep(ScanHeaders(hs[..i], folder, folders), hs[i], folder)
  {
    assert hs[..i + 1][..i] == hs[..i];
  }

  // ---------------------------------------------------------------------
  // read_message, as a specification

  /** The effect of reading one message: what it returns or raises, the folders then existing, and the files written. */
  datatype ReadEffect = ReadEffect(result: Result<Metadata, Error>, folders: set<string>, writes: seq<FileWrite>)

  /** The message's folder under the mail dump. */
  function MessageFolder(attr: PostmanAttr, id: string): string
  {
    PathJoin(attr.mailDumpFolder, id)
  }

  /** The walk's inputs for one message saved in `folder`. */
  function EnvFor(attr: PostmanAttr, codec: Codec, mailbox: map<string, StoredMessage>, folder: string, ref: MessageRef): Env
  {
    Env(folder, attr.downloadAttachments, codec, if ref.id in mailbox then mailbox[ref.id].attachments else map[])
  }

  /** A flat body's text: `urlsafe_b64decode(payload["body"]["data"]).decode()`. */
  function BodyText(body: Body, codec: Codec): Result<string, Error>
  {
    match body.data
    case None => Err(MissingKey("data"))
    case Some(d) =>
      match codec.b64(d)
      case None => Err(DecodeError)
      case Some(bs) =>
        match codec.utf8(bs)
        case None => Err(DecodeError)
        case Some(t) => Ok(t)
  }

  /**
   * Everything `read_message` does once the headers are read and the folder
   * exists: walk the parts, add a flat body's text, write message.json,
   * create the metadata folder (an existing one is fine) and write
   * metadata.json.
   */
  function Materialize(ref: MessageRef, msg: Message, labelIds: seq<string>, env: Env,
                       attr: PostmanAttr, from: Option<string>, to: Option<string>,
                       subject: string, date: Option<string>, folders: set<string>): (e: ReadEffect)
    ensures folders <= e.folders
    ensures e.result.Err? ==> e.folders == folders
    ensures e.result.Ok? ==> e.result.value.messageId == ref.id && e.result.value.labelIds == labelIds
                             && e.result.value.subject == subject
  {
    var w := WalkParts(msg.payload.parts, env);
    if w.failure.Some? then ReadEffect(Err(w.failure.value), folders, w.writes)
    else
      var body := if msg.payload.parts == [] then BodyText(msg.payload.body, env.codec) else Ok("");
      if body.Err? then ReadEffect(Err(body.error), folders, w.writes)
      else
        var contents := if msg.payload.parts == [] then Cat(w.contents, Contents([body.value], [], [])) else w.contents;
        var md := Metadata(ref.id, labelIds, from, to, subject, date, contents);
        var metaFolder := PathJoin(attr.metadataDumpFolder, ref.id);
        ReadEffect(Ok(md), folders + {metaFolder},
                   w.writes + [FileWrite(PathJoin(env.folder, "message.json"), MessageJson(msg)),
                               FileWrite(PathJoin(metaFolder, "metadata.json"), MetadataJson(md))])
  }

  /** Materialisation stops with the parts walk's error and the files written before it. */
  lemma MaterializeWalkFails(ref: MessageRef, msg: Message, labelIds: seq<string>, env: Env,
                             attr: PostmanAttr, from: Option<string>, to: Option<string>,
                             subject: string, date: Option<string>, folders: set<string>)
    requires WalkParts(msg.payload.parts, env).failure.Some?
    ensures var w := WalkParts(msg.payload.parts, env);
      Materialize(ref, msg, labelIds, env, attr, from, to, subject, date, folders) == ReadEffect(Err(w.failure.value), folders, w.writes)
  {
  }

  /** A flat body that cannot be decoded stops materialisation after the parts walk. */
  lemma MaterializeBodyFails(ref: MessageRef, msg: Message, labelIds: seq<string>, env: Env,
                             attr: PostmanAttr, from: Option<string>, to: Option<string>,
                             subject: string, date: Option<string>, folders: set<string>)
    requires WalkParts(msg.payload.parts, env).failure.None?
    requires msg.payload.parts == [] && BodyText(msg.payload.body, env.codec).Err?
    ensures var w := WalkParts(msg.payload.parts, env);
      Materialize(ref, msg, labelIds, env, attr, from, to, subject, date, folders)
        == ReadEffect(Err(BodyText(msg.payload.body, env.codec).error), folders, w.writes)
  {
  }

  /** Once the parts and the body are read, materialisation records `contents` and writes the two JSON files. */
  lemma MaterializeWrites(ref: MessageRef, msg: Message, labelIds: seq<string>, env: Env,
                          attr: PostmanAttr, from: Option<string>, to: Option<string>,
                          subject: string, date: Option<string>, folders: set<string>, contents: Contents)
    requires WalkParts(msg.payload.parts, env).failure.None?
    requires msg.payload.parts == [] ==> BodyText(msg.payload.body, env.codec).Ok?
    requires var w := WalkParts(msg.payload.parts, env);
      contents == if msg.payload.parts == [] then Cat(w.contents, Contents([BodyText(msg.payload.body, env.codec).value], [], []))
                  else w.contents
    ensures var w := WalkParts(msg.payload.parts, env);
      var md := Metadata(ref.id, labelIds, from, to, subject, date, contents);
      var metaFolder := PathJoin(attr.metadataDumpFolder, ref.id);
      Materialize(ref, msg, labelIds, env, attr, from, to, subject, date, folders)
        == ReadEffect(Ok(md), folders + {metaFolder},
                      w.writes + [FileWrite(PathJoin(env.folder, "message.json"), MessageJson(msg)),
                                  FileWrite(PathJoin(metaFolder, "metadata.json"), MetadataJson(md))])
  {
  }

  /** A materialisation that succeeds records the given entries and ends by writing message.json and metadata.json. */
  lemma MaterializeOk(ref: MessageRef, msg: Message, labelIds: seq<string>, env: Env,
                      attr: PostmanAttr, from: Option<string>, to: Option<string>,
                      subject: string, date: Option<string>, folders: set<string>)
    requires Materialize(ref, msg, labelIds, env, attr, from, to, subject, date, folders).result.Ok?
    ensures var e := Materialize(ref, msg, labelIds, env, attr, from, to, subject, date, folders);
      var md := e.result.value; var metaFolder := PathJoin(attr.metadataDumpFolder, ref.id);
      && md.messageId == ref.id && md.labelIds == labelIds && md.subject == subject
      && md.from == from && md.to == to && md.date == date
      && e.folders == folders + {metaFolder}
      && |e.writes| >= 2
      && e.writes[|e.writes| - 2] == FileWrite(PathJoin(env.folder, "message.json"), MessageJson(msg))
      && e.writes[|e.writes| - 1] == FileWrite(PathJoin(metaFolder, "metadata.json"), MetadataJson(md))
  {
  }

  /** A message's headers; a payload without `headers` has none. */
  function HeadersOf(msg: Message): seq<Header>
  {
    if msg.payload.headers.Some? then msg.payload.headers.value else []
  }

  /** `read_message(message)` as written: the folder name is bound, and the folder created, only at a subject header. */
  function ReadMessageSpec(ref: MessageRef, mailbox: map<string, StoredMessage>, attr: PostmanAttr,
                           codec: Codec, folders: set<string>): (r: ReadEffect)
    ensures folders <= r.folders
    ensures r.result.Ok? ==>
              && r.result.value.messageId == ref.id
              && MessageFolder(attr, ref.id) !in folders && MessageFolder(attr, ref.id) in r.folders
  {
    if ref.id !in mailbox then ReadEffect(Err(NotFound(ref.id)), folders, [])
    else
      var msg := mailbox[ref.id].message;
      if msg.labelIds.None? then ReadEffect(Err(MissingKey("labelIds")), folders, [])
      else
        var folder := MessageFolder(attr, ref.id);
        var hs := HeadersOf(msg);
        var sc := ScanHeaders(hs, folder, folders);
        if sc.failure.Some? then ReadEffect(Err(sc.failure.value), sc.folders, [])
        else if sc.subject.None? then ReadEffect(Err(UnboundFolderName), sc.folders, [])
        else Materialize(ref, msg, msg.labelIds.value, EnvFor(attr, codec, mailbox, folder, ref), attr,
                         sc.from, sc.to, sc.subject.value, sc.date, sc.folders)
  }

  /**
   * What `read_message` is evidently meant to do: create the message's folder,
   * keyed by its id, once and whatever its headers; record each header's last
   * value; default the subject to ""; and, when the read fails after that,
   * remove the folder again, so that a retry starts afresh.
   */
  function ReadMessageIntended(ref: MessageRef, mailbox: map<string, StoredMessage>, attr: PostmanAttr,
                               codec: Codec, folders: set<string>): (r: ReadEffect)
    ensures r.result.Err? ==> r.folders == folders
    ensures r.result.Ok? ==>
              && r.result.value.messageId == ref.id
              && MessageFolder(attr, ref.id) !in folders && MessageFolder(attr, ref.id) in r.folders
  {
    if ref.id !in mailbox then ReadEffect(Err(NotFound(ref.id)), folders, [])
    else
      var msg := mailbox[ref.id].message;
      if msg.labelIds.None? then ReadEffect(Err(MissingKey("labelIds")), folders, [])
      else
        var folder := MessageFolder(attr, ref.id);
        var hs := HeadersOf(msg);
        if folder in folders then ReadEffect(Err(FolderExists(folder)), folders, [])
        else
          var subject := LastValue(hs, "subject");
          var e := Materialize(ref, msg, msg.labelIds.value, EnvFor(attr, codec, mailbox, folder, ref), attr,
                               LastValue(hs, "from"), LastValue(hs, "to"), if subject.Some? then subject.value else "",
                               LastValue(hs, "date"), folders + {folder});
          if e.result.Err? then e.(folders := folders) else e
  }

  /**
   * `read_message` as written fails for every message without a subject
   * header (the folder name is read unbound), for a message with two, and
   * when the message's folder already exists.
   */
  lemma ReadMessageHeaderFailures(ref: MessageRef, mailbox: map<string, StoredMessage>, attr: PostmanAttr,
                                  codec: Codec, folders: set<string>)
    requires ref.id in mailbox && mailbox[ref.id].message.labelIds.Some?
    ensures var n := CountNamed(HeadersOf(mailbox[ref.id].message), "subject");
      var folder := MessageFolder(attr, ref.id);
      var r := ReadMessageSpec(ref, mailbox, attr, codec, folders).result;
      && (n == 0 ==> r == Err(UnboundFolderName))
      && (n >= 2 ==> r == Err(FolderExists(folder)))
      && (n >= 1 && folder in folders ==> r == Err(FolderExists(folder)))
  {
    var msg := mailbox[ref.id].message;
    var folder := MessageFolder(attr, ref.id);
    ScanHeadersOutcome(HeadersOf(msg), folder, folders);
    if CountNamed(HeadersOf(msg), "subject") == 0 {
      NoneNamed(HeadersOf(msg), "subject");
    }
  }

  /**
   * A message that `read_message` materialises has exactly one subject header;
   * its metadata holds the message's id and labels and each header's last
   * value; its folder and its metadata folder exist afterwards, and
   * message.json and metadata.json are the last two files written.
   */
  lemma ReadMessageSuccess(ref: MessageRef, mailbox: map<string, StoredMessage>, attr: PostmanAttr,
                           codec: Codec, folders: set<string>)
    requires ReadMessageSpec(ref, mailbox, attr, codec, folders).result.Ok?
    ensures ref.id in mailbox
    ensures var msg := mailbox[ref.id].message; var hs := HeadersOf(msg);
      var e := ReadMessageSpec(ref, mailbox, attr, codec, folders); var md := e.result.value;
      var folder := MessageFolder(attr, ref.id); var metaFolder := PathJoin(attr.metadataDumpFolder, ref.id);
      && CountNamed(hs, "subject") == 1 && folder !in folders
      && md.messageId == ref.id && msg.labelIds == Some(md.labelIds)
      && Some(md.subject) == LastValue(hs, "subject")
      && md.from == LastValue(hs, "from") && md.to == LastValue(hs, "to") && md.date == LastValue(hs, "date")
      && e.folders == folders + {folder, metaFolder}
      && |e.writes| >= 2
      && e.writes[|e.writes| - 2] == FileWrite(PathJoin(folder, "message.json"), MessageJson(msg))
      && e.writes[|e.writes| - 1] == FileWrite(PathJoin(metaFolder, "metadata.json"), MetadataJson(md))
  {
    ReadMessageMaterializes(ref, mailbox, attr, codec, folders);
    var msg := mailbox[ref.id].message;
    var hs := HeadersOf(msg);
    var folder := MessageFolder(attr, ref.id);
    var sc := ScanHeaders(hs, folder, folders);
    ScanHeadersOutcome(hs, folder, folders);
    if CountNamed(hs, "subject") == 0 {
      NoneNamed(hs, "subject");
    }
    assert sc.folders == folders + {folder};
    MaterializeOk(ref, msg, msg.labelIds.value, EnvFor(attr, codec, mailbox, folder, ref), attr,
                  sc.from, sc.to, sc.subject.value, sc.date, sc.folders);
  }

  /** A `read_message` that succeeds got past the header loop with a subject and materialised the message. */
  lemma ReadMessageMaterializes(ref: MessageRef, mailbox: map<string, StoredMessage>, attr: PostmanAttr,
                                codec: Codec, folders: set<string>)
    requires ReadMessageSpec(ref, mailbox, attr, codec, folders).result.Ok?
    ensures ref.id in mailbox && mailbox[ref.id].message.labelIds.Some?
    ensures var msg := mailbox[ref.id].message; var folder := MessageFolder(attr, ref.id);
      var sc := ScanHeaders(HeadersOf(msg), folder, folders);
      && sc.failure.None? && sc.subject.Some?
      && ReadMessageSpec(ref, mailbox, attr, codec, folders)
         == Materialize(ref, msg, msg.labelIds.value, EnvFor(attr, codec, mailbox, folder, ref), attr,
                        sc.from, sc.to, sc.subject.value, sc.date, sc.folders)
  {
  }

  /** After the header loop, `read_message` raises the loop's error, or the unbound folder name, or materialises. */
  lemma ReadMessageAfterScan(ref: MessageRef, mailbox: map<string, StoredMessage>, attr: PostmanAttr,
                             codec: Codec, folders: set<string>)
    requires ref.id in mailbox && mailbox[ref.id].message.labelIds.Some?
    ensures var msg := mailbox[ref.id].message; var folder := MessageFolder(attr, ref.id);
      var sc := ScanHeaders(HeadersOf(msg), folder, folders); var e := ReadMessageSpec(ref, mailbox, attr, codec, folders);
      && (sc.failure.Some? ==> e == ReadEffect(Err(sc.failure.value), sc.folders, []))
      && (sc.failure.None? && sc.subject.None? ==> e == ReadEffect(Err(UnboundFolderName), sc.folders, []))
      && (sc.failure.None? && sc.subject.Some? ==>
            e == Materialize(ref, msg, msg.labelIds.value, EnvFor(attr, codec, mailbox, folder, ref), attr,
                             sc.from, sc.to, sc.subject.value, sc.date, sc.folders))
  {
  }

  /**
   * A flat message (no parts) that is materialised has as contents its
   * decoded body as the one text, and no HTML or attachment.
   */
  lemma FlatBodyContents(ref: MessageRef, mailbox: map<string, StoredMessage>, attr: PostmanAttr,
                         codec: Codec, folders: set<string>)
    requires ReadMessageSpec(ref, mailbox, attr, codec, folders).result.Ok?
    requires ref.id in mailbox && mailbox[ref.id].message.payload.parts == []
    ensures var body := BodyText(mailbox[ref.id].message.payload.body, codec);
      && body.Ok?
      && ReadMessageSpec(ref, mailbox, attr, codec, folders).result.value.contents == Contents([body.value], [], [])
  {
  }

  /**
   * The intended reading agrees with the code wherever the code succeeds, and
   * it also materialises a message without a subject header, with subject "".
   */
  lemma IntendedAgreesWhereCodeSucceeds(ref: MessageRef, mailbox: map<string, StoredMessage>, attr: PostmanAttr,
                                        codec: Codec, folders: set<string>)
    ensures ReadMessageSpec(ref, mailbox, attr, codec, folders).result.Ok? ==>
      ReadMessageIntended(ref, mailbox, attr, codec, folders) == ReadMessageSpec(ref, mailbox, attr, codec, folders)
    ensures ref.id in mailbox && mailbox[ref.id].message.labelIds.Some?
      && CountNamed(HeadersOf(mailbox[ref.id].message), "subject") == 0
      && MessageFolder(attr, ref.id) !in folders
      && ReadMessageIntended(ref, mailbox, attr, codec, folders).result.Ok?
      ==> ReadMessageIntended(ref, mailbox, attr, codec, folders).result.value.subject == ""
  {
    if ref.id in mailbox && mailbox[ref.id].message.labelIds.Some? {
      var msg := mailbox[ref.id].message;
      ScanHeadersOutcome(HeadersOf(msg), MessageFolder(attr, ref.id), folders);
      if CountNamed(HeadersOf(msg), "subject") == 0 {
        NoneNamed(HeadersOf(msg), "subject");
      }
    }
  }

  /**
   * The intended reading collects a message without a subject header exactly
   * when its parts walk and, for a flat message, its body decoding succeed;
   * the subject is then "" and the message's folder exists.
   */
  lemma IntendedCollectsSubjectless(ref: MessageRef, mailbox: map<string, StoredMessage>, attr: PostmanAttr,
                                    codec: Codec, folders: set<string>)
    requires ref.id in mailbox && mailbox[ref.id].message.labelIds.Some?
    requires CountNamed(HeadersOf(mailbox[ref.id].message), "subject") == 0
    requires MessageFolder(attr, ref.id) !in folders
    ensures var msg := mailbox[ref.id].message;
      var env := EnvFor(attr, codec, mailbox, MessageFolder(attr, ref.id), ref);
      ReadMessageIntended(ref, mailbox, attr, codec, folders).result.Ok? <==>
        WalkParts(msg.payload.parts, env).failure.None?
        && (msg.payload.parts == [] ==> BodyText(msg.payload.body, codec).Ok?)
    ensures var e := ReadMessageIntended(ref, mailbox, attr, codec, folders);
      e.result.Ok? ==> e.result.value.subject == "" && MessageFolder(attr, ref.id) in e.folders
  {
    NoneNamed(HeadersOf(mailbox[ref.id].message), "subject");
  }

  /** A message with a From header and no subject: the code raises, the intended reading materialises it. */
  lemma NoSubjectCounterexample()
    ensures var ref := MessageRef("m1", "t1");
      var msg := Message(Some(["INBOX"]), Payload(Some([Header("From", "a@b")]), [], Body(Some("aGk"), None)));
      var mailbox := map["m1" := StoredMessage(msg, map[])];
      var attr := PostmanAttr("mail", "meta", false);
      var codec := Codec(_ => Some([104, 105]), _ => Some("hi"));
      && ReadMessageSpec(ref, mailbox, attr, codec, {}).result == Err(UnboundFolderName)
      && ReadMessageIntended(ref, mailbox, attr, codec, {}).result.Ok?
      && ReadMessageIntended(ref, mailbox, attr, codec, {}).result.value.subject == ""
  {
    var hs := [Header("From", "a@b")];
    assert LowerAscii("From") == "from";
    assert hs[..0] == [];
  }

  /** Materialisation only ever adds folders. */
  lemma MaterializeKeepsFolders(ref: MessageRef, msg: Message, labelIds: seq<string>, env: Env,
                                attr: PostmanAttr, from: Option<string>, to: Option<string>,
                                subject: string, date: Option<string>, folders: set<string>)
    ensures folders <= Materialize(ref, msg, labelIds, env, attr, from, to, subject, date, folders).folders
  {
  }

  /**
   * Once `read_message` has met a subject header, the message's folder
   * exists afterwards, whatever the read returned or raised.
   */
  lemma ReadMessageLeavesFolder(ref: MessageRef, mailbox: map<string, StoredMessage>, attr: PostmanAttr,
                                codec: Codec, folders: set<string>)
    requires ref.id in mailbox && mailbox[ref.id].message.labelIds.Some?
    requires CountNamed(HeadersOf(mailbox[ref.id].message), "subject") >= 1
    ensures MessageFolder(attr, ref.id) in ReadMessageSpec(ref, mailbox, attr, codec, folders).folders
  {
    var msg := mailbox[ref.id].message;
    var folder := MessageFolder(attr, ref.id);
    var sc := ScanHeaders(HeadersOf(msg), folder, folders);
    ScanHeadersOutcome(HeadersOf(msg), folder, folders);
    ReadMessageAfterScan(ref, mailbox, attr, codec, folders);
    if sc.failure.None? && sc.subject.Some? {
      MaterializeKeepsFolders(ref, msg, msg.labelIds.value, EnvFor(attr, codec, mailbox, folder, ref), attr,
                              sc.from, sc.to, sc.subject.value, sc.date, sc.folders);
    }
  }

  /**
   * A second attempt on a message with a subject header raises at `os.mkdir`,
   * whatever the first attempt returned and whatever the API answers the
   * second time: the first attempt left the message's folder behind.
   */
  lemma ReadMessageRetryBlocked(ref: MessageRef, mailbox: map<string, StoredMessage>, mailbox2: map<string, StoredMessage>,
                                attr: PostmanAttr, codec: Codec, codec2: Codec, folders: set<string>)
    requires ref.id in mailbox && mailbox[ref.id].message.labelIds.Some?
    requires CountNamed(HeadersOf(mailbox[ref.id].message), "subject") >= 1
    requires ref.id in mailbox2 && mailbox2[ref.id].message.labelIds.Some?
    requires CountNamed(HeadersOf(mailbox2[ref.id].message), "subject") >= 1
    ensures var first := ReadMessageSpec(ref, mailbox, attr, codec, folders);
      ReadMessageSpec(ref, mailbox2, attr, codec2, first.folders).result == Err(FolderExists(MessageFolder(attr, ref.id)))
  {
    var first := ReadMessageSpec(ref, mailbox, attr, codec, folders);
    ReadMessageLeavesFolder(ref, mailbox, attr, codec, folders);
    ReadMessageHeaderFailures(ref, mailbox2, attr, codec2, first.folders);
  }

  /** The corrected read leaves the folders as they were whenever it fails. */
  lemma IntendedFailureKeepsFolders(ref: MessageRef, mailbox: map<string, StoredMessage>, attr: PostmanAttr,
                                    codec: Codec, folders: set<string>)
    ensures ReadMessageIntended(ref, mailbox, attr, codec, folders).result.Err? ==>
      ReadMessageIntended(ref, mailbox, attr, codec, folders).folders == folders
  {
  }

  /**
   * With the corrected read, a retry after a failed attempt is a fresh read:
   * whatever the API answers the second time, the first attempt leaves
   * nothing behind that changes it.
   */
  lemma IntendedRetryStartsAfresh(ref: MessageRef, mailbox: map<string, StoredMessage>, mailbox2: map<string, StoredMessage>,
                                  attr: PostmanAttr, codec: Codec, codec2: Codec, folders: set<string>)
    requires ReadMessageIntended(ref, mailbox, attr, codec, folders).result.Err?
    ensures var first := ReadMessageIntended(ref, mailbox, attr, codec, folders);
      ReadMessageIntended(ref, mailbox2, attr, codec2, first.folders) == ReadMessageIntended(ref, mailbox2, attr, codec2, folders)
  {
    IntendedFailureKeepsFolders(ref, mailbox, attr, codec, folders);
  }

  /**
   * A flat message with a subject header but no body data fails; on the
   * retry the API returns it with its data.  As written the retry raises at
   * `os.mkdir`; the corrected read materialises it.
   */
  lemma RetryCounterexample()
    ensures var ref := MessageRef("m1", "t1");
      var hs := Some([Header("Subject", "hi")]);
      var first := map["m1" := StoredMessage(Message(Some(["INBOX"]), Payload(hs, [], Body(None, None))), map[])];
      var second := map["m1" := StoredMessage(Message(Some(["INBOX"]), Payload(hs, [], Body(Some("aGk"), None))), map[])];
      var attr := PostmanAttr("mail", "meta", false);
      var codec := Codec(_ => Some([104, 105]), _ => Some("hi"));
      var e := ReadMessageSpec(ref, first, attr, codec, {});
      var i := ReadMessageIntended(ref, first, attr, codec, {});
      && e.result == Err(MissingKey("data"))
      && ReadMessageSpec(ref, second, attr, codec, e.folders).result == Err(FolderExists("mail/m1"))
      && i.result == Err(MissingKey("data"))
      && ReadMessageIntended(ref, second, attr, codec, i.folders).result.Ok?
  {
    var h := [Header("Subject", "hi")];
    assert LowerAscii("Subject") == "subject";
    assert h[..0] == [];
    assert PathJoin("mail", "m1") == "mail/m1";
  }

  // ---------------------------------------------------------------------
  // The postman object

  class GmailPostman {
    const attr: PostmanAttr
    const codec: Codec
    /** The account behind the API: each message id with its full message and attachments. */
    const mailbox: map<string, StoredMessage>
    /** `self.service`, replaced on every authentication. */
    var service: Session
    /** The folders that exist on disk. */
    var folders: set<string>
    /** Every file written, in order. */
    var written: seq<FileWrite>

    /** `GmailPostman(attr)`: the first authentication yields a session. */
    constructor (attr: PostmanAttr, codec: Codec, mailbox: map<string, StoredMessage>, folders: set<string>)
      ensures this.attr == attr && this.codec == codec && this.mailbox == mailbox && this.folders == folders
      ensures service == Session(0) && written == []
    {
      this.attr := attr;
      this.codec := codec;
      this.mailbox := mailbox;
      this.service := Session(0);
      this.folders := folders;
      this.written := [];
    }

    /** `_gmail_authenticate()`: a session newer than the current one. */
    method Authenticate() returns (s: Session)
      ensures s.generation == service.generation + 1
    {
      s := Session(service.generation + 1);
    }

    /**
     * `search_messages(query)` against an endpoint that answers its
     * successive requests with `pages`: the references of every page up to
     * the first one without a continuation token, in page order; each
     * request after the first passes the previous page's token.
     */
    method SearchMessages(query: string, pages: seq<Page>) returns (messages: seq<MessageRef>, ghost requests: seq<Request>)
      requires Ends(pages)
      ensures messages == Collected(pages[..LastPage(pages) + 1])
      ensures |requests| == LastPage(pages) + 1
      ensures requests[0] == Request(query, None)
      ensures forall i :: 1 <= i < |requests| ==> requests[i] == Request(query, pages[i - 1].nextPageToken)
    {
      var result := pages[0];
      requests := [Request(query, None)];
      var n := 1;
      messages := [];
      if result.messages.Some? {
        messages := messages + result.messages.value;
      }
      assert pages[..1][..0] == [];
      while result.nextPageToken.Some?
        invariant 1 <= n <= LastPage(pages) + 1
        invariant result == pages[n - 1]
        invariant messages == Collected(pages[..n])
        invariant |requests| == n && requests[0] == Request(query, None)
        invariant forall i :: 1 <= i < n ==> requests[i] == Request(query, pages[i - 1].nextPageToken)
        decreases LastPage(pages) + 1 - n
      {
        var pageToken := result.nextPageToken.value;
        result := pages[n];
        requests := requests + [Request(query, Some(pageToken))];
        if result.messages.Some? {
          messages := messages + result.messages.value;
        }
        assert pages[..n + 1][..n] == pages[..n];
        n := n + 1;
      }
    }

    /** `open(path, "wb")` and a write. */
    method WriteFile(path: string, content: FileContent)
      modifies this`written
      ensures written == old(written) + [FileWrite(path, content)]
    {
      written := written + [FileWrite(path, content)];
    }

    /**
     * `os.mkdir(path)`: raises (returns false) when the folder exists.  The
     * folders are a flat set, so the parent folder is taken to exist.
     */
    method MakeDir(path: string) returns (created: bool)
      modifies this`folders
      ensures created == (path !in old(folders))
      ensures folders == old(folders) + {path}
    {
      created := path !in folders;
      folders := folders + {path};
    }

    /** The if/elif/else of the part loop for one part: its own text, HTML file or attachments. */
    method ParseOwn(part: Part, folderName: string, message: MessageRef) returns (r: Result<Contents, Error>)
      modifies this`written
      ensures var w := Own(part, EnvFor(attr, codec, mailbox, folderName, message));
        && written == old(written) + w.writes
        && r == if w.failure.Some? then Err(w.failure.value) else Ok(w.contents)
    {
      ghost var env := EnvFor(attr, codec, mailbox, folderName, message);
      if part.mimeType == "text/plain" {
        var text := PlainText(part.body.data, codec);
        if text.Err? {
          return Err(text.error);
        }
        return Ok(Contents([text.value], [], []));
      } else if part.mimeType == "text/html" {
        var filename := if part.filename == "" then "index.html" else part.filename;
        var filepath := PathJoin(folderName, filename);
        var data := Base64(part.body.data, codec);
        if data.Err? {
          WriteFile(filepath, Raw([]));
          return Err(data.error);
        }
        WriteFile(filepath, Raw(data.value));
        return Ok(Contents([], [filepath], []));
      } else {
        if part.headers.None? {
          return Err(NotIterable);
        }
        r := ScanAttachments(part, part.headers.value, folderName, message);
      }
    }

    /**
     * One header of the attachment loop: the attachment paths it adds ([] or one),
     * or the error it raises.
     */
    method SaveAttachment(h: Header, part: Part, folderName: string, message: MessageRef)
      returns (r: Result<seq<string>, Error>)
      modifies this`written
      ensures var s := AttachmentStep(h, part, EnvFor(attr, codec, mailbox, folderName, message));
        && written == old(written) + s.writes
        && s.contents.texts == [] && s.contents.htmls == []
        && r == if s.failure.Some? then Err(s.failure.value) else Ok(s.contents.attachments)
    {
      if h.name == "Content-Disposition" {
        if Contains(h.value, "attachment") && attr.downloadAttachments {
          var attachmentId := part.body.attachmentId;
          if attachmentId.None? {
            return Err(NotFound("attachment"));
          }
          var attachments := if message.id in mailbox then mailbox[message.id].attachments else map[];
          if attachmentId.value !in attachments {
            return Err(NotFound(attachmentId.value));
          }
          var data := attachments[attachmentId.value];
          var filepath := PathJoin(folderName, part.filename);
          if data != "" {
            var decoded := codec.b64(data);
            if decoded.None? {
              WriteFile(filepath, Raw([]));
              return Err(DecodeError);
            }
            WriteFile(filepath, Raw(decoded.value));
            return Ok([filepath]);
          }
        }
      }
      return Ok([]);
    }

    /**
     * The header loop for a part of another MIME type: one attachment file
     * per `Content-Disposition: attachment` header, when downloads are on
     * and the fetched data is not empty.
     */
    method ScanAttachments(part: Part, partHeaders: seq<Header>, folderName: string, message: MessageRef)
      returns (r: Result<Contents, Error>)
      modifies this`written
      ensures var w := AttachmentScan(partHeaders, part, EnvFor(attr, codec, mailbox, folderName, message));
        && written == old(written) + w.writes
        && r == if w.failure.Some? then Err(w.failure.value) else Ok(w.contents)
    {
      ghost var env := EnvFor(attr, codec, mailbox, folderName, message);
      var attachmentFilepaths: seq<string> := [];
      ghost var written0 := written;
      for i := 0 to |partHeaders|
        invariant AttachmentScan(partHeaders[..i], part, env).failure.None?
        invariant AttachmentScan(partHeaders[..i], part, env).contents == Contents([], [], attachmentFilepaths)
        invariant written == written0 + AttachmentScan(partHeaders[..i], part, env).writes
      {
        ghost var before := AttachmentScan(partHeaders[..i], part, env);
        ghost var step := AttachmentStep(partHeaders[i], part, env);
        AttachmentScanSnoc(partHeaders, i, part, env);
        var added := SaveAttachment(partHeaders[i], part, folderName, message);
        AppendAssoc(written0, before.writes, step.writes);
        if added.Err? {
          AttachmentScanFailureSticks(partHeaders, i + 1, part, env);
          return Err(added.error);
        }
        attachmentFilepaths := attachmentFilepaths + added.value;
      }
      assert partHeaders[..|partHeaders|] == partHeaders;
      return Ok(Contents([], [], attachmentFilepaths));
    }

    /** The body of the part loop for one part: its nested parts first, when it has any, then its own entry. */
    method ParsePart(part: Part, folderName: string, message: MessageRef) returns (r: Result<Contents, Error>)
      modifies this`written
      decreases part, 1
      ensures var w := WalkPart(part, EnvFor(attr, codec, mailbox, folderName, message));
        && written == old(written) + w.writes
        && r == if w.failure.Some? then Err(w.failure.value) else Ok(w.contents)
    {
      var contents := NoContents;
      if part.parts != [] {
        var contentsRet := ParseParts(part.parts, folderName, message);
        if contentsRet.Err? {
          return contentsRet;
        }
        contents := contentsRet.value;
      }
      var own := ParseOwn(part, folderName, message);
      if own.Err? {
        return own;
      }
      return Ok(Cat(contents, own.value));
    }

    /** `parse_parts(parts, folder_name, message)`: the parts in order, each contributing after its nested parts. */
    method ParseParts(parts: seq<Part>, folderName: string, message: MessageRef) returns (r: Result<Contents, Error>)
      modifies this`written
      decreases parts, 0
      ensures var w := WalkParts(parts, EnvFor(attr, codec, mailbox, folderName, message));
        && written == old(written) + w.writes
        && r == if w.failure.Some? then Err(w.failure.value) else Ok(w.contents)
      ensures parts == [] ==> r == Ok(NoContents) && written == old(written)
    {
      ghost var env := EnvFor(attr, codec, mailbox, folderName, message);
      var contents := NoContents;
      if parts != [] {
        for i := 0 to |parts|
          invariant WalkParts(parts[..i], env).failure.None?
          invariant contents == WalkParts(parts[..i], env).contents
          invariant written == old(written) + WalkParts(parts[..i], env).writes
        {
          ghost var before := WalkParts(parts[..i], env);
          ghost var step := WalkPart(parts[i], env);
          WalkPartsSnoc(parts, i, env);
          var contentsRet := ParsePart(parts[i], folderName, message);
          AppendAssoc(old(written), before.writes, step.writes);
          if contentsRet.Err? {
            WalkPartsFailureSticks(parts, i + 1, env);
            return contentsRet;
          }
          contents := Cat(contents, contentsRet.value);
        }
        assert parts[..|parts|] == parts;
      }
      return Ok(contents);
    }

    /**
     * `read_message(message)`: fetch the message, scan its headers (creating
     * its folder at a subject header), walk its parts, add a flat body's
     * text, and write message.json and metadata.json.
     */
    method ReadMessage(message: MessageRef) returns (r: Result<Metadata, Error>)
      modifies this`folders, this`written
      ensures var e := ReadMessageSpec(message, mailbox, attr, codec, old(folders));
        && r == e.result && folders == e.folders && written == old(written) + e.writes
    {
      if message.id !in mailbox {
        return Err(NotFound(message.id));
      }
      var msg := mailbox[message.id].message;
      if msg.labelIds.None? {
        return Err(MissingKey("labelIds"));
      }
      var labelIds := msg.labelIds.value;
      var payload := msg.payload;
      var headers := if payload.headers.Some? then payload.headers.value else [];
      var parts := payload.parts;
      var hasSubject := false;
      var from, to, subject, date := None, None, None, None;
      var folderName: Option<string> := None;
      ghost var folder := MessageFolder(attr, message.id);
      for i := 0 to |headers|
        invariant ScanHeaders(headers[..i], folder, old(folders)) == Scan(from, to, subject, date, folders, None)
        invariant hasSubject == subject.Some?
        invariant folderName == if hasSubject then Some(folder) else None
        invariant written == old(written)
      {
        ScanHeadersSnoc(headers, i, folder, old(folders));
        var name := LowerAscii(headers[i].name);
        var value := headers[i].value;
        if name == "from" {
          from := Some(value);
        }
        if name == "to" {
          to := Some(value);
        }
        if name == "subject" {
          hasSubject := true;
          folderName := Some(PathJoin(attr.mailDumpFolder, message.id));
          var created := MakeDir(folderName.value);
          if !created {
            ScanFailureSticks(headers, i + 1, folder, old(folders));
            ReadMessageAfterScan(message, mailbox, attr, codec, old(folders));
            return Err(FolderExists(folderName.value));
          }
          subject := Some(value);
        }
        if name == "date" {
          date := Some(value);
        }
      }
      assert headers[..|headers|] == headers;
      ghost var sc := ScanHeaders(headers, folder, old(folders));
      assert sc == Scan(from, to, subject, date, folders, None);
      ReadMessageAfterScan(message, mailbox, attr, codec, old(folders));
      if !hasSubject {
        subject := Some("");
      }
      if folderName.None? {
        return Err(UnboundFolderName);
      }
      r := SaveMessage(message, msg, labelIds, folderName.value, from, to, subject.value, date);
    }

    /**
     * The end of `read_message`: walk the parts, add a flat body's text, write
     * message.json, create the metadata folder and write metadata.json.
     */
    method SaveMessage(message: MessageRef, msg: Message, labelIds: seq<string>, folderName: string,
                       from: Option<string>, to: Option<string>, subject: string, date: Option<string>)
      returns (r: Result<Metadata, Error>)
      modifies this`folders, this`written
      ensures var e := Materialize(message, msg, labelIds, EnvFor(attr, codec, mailbox, folderName, message),
                                   attr, from, to, subject, date, old(folders));
        && r == e.result && folders == e.folders && written == old(written) + e.writes
    {
      ghost var env := EnvFor(attr, codec, mailbox, folderName, message);
      ghost var w := WalkParts(msg.payload.parts, env);
      var payload := msg.payload;
      var parts := payload.parts;
      var contents := ParseParts(parts, folderName, message);
      if contents.Err? {
        MaterializeWalkFails(message, msg, labelIds, env, attr, from, to, subject, date, folders);
        return Err(contents.error);
      }
      var metadataContents := contents.value;
      if parts == [] {
        var text := BodyText(payload.body, codec);
        if text.Err? {
          MaterializeBodyFails(message, msg, labelIds, env, attr, from, to, subject, date, folders);
          return Err(text.error);
        }
        metadataContents := Cat(metadataContents, Contents([text.value], [], []));
      }
      var md := Metadata(message.id, labelIds, from, to, subject, date, metadataContents);
      var metaFolder := PathJoin(attr.metadataDumpFolder, message.id);
      MaterializeWrites(message, msg, labelIds, env, attr, from, to, subject, date, folders, metadataContents);
      AppendWrites(old(written), w.writes, FileWrite(PathJoin(folderName, "message.json"), MessageJson(msg)),
                   FileWrite(PathJoin(metaFolder, "metadata.json"), MetadataJson(md)));
      WriteFile(PathJoin(folderName, "message.json"), MessageJson(msg));
      folders := folders + {metaFolder};
      WriteFile(PathJoin(metaFolder, "metadata.json"), MetadataJson(md));
      return Ok(md);
    }
  }

  /** The attachment loop over the first `i + 1` headers is the loop over the first `i` and then header `i`. */
  lemma AttachmentScanSnoc(hs: seq<Header>, i: nat, p: Part, env: Env)
    requires i < |hs|
    ensures AttachmentScan(hs[..i + 1], p, env) == Then(AttachmentScan(hs[..i], p, env), AttachmentStep(hs[i], p, env))
  {
    assert hs[..i + 1][..i] == hs[..i];
  }

  /** The parts walk over the first `i + 1` parts is the walk over the first `i` and then part `i`. */
  lemma WalkPartsSnoc(ps: seq<Part>, i: nat, env: Env)
    requires i < |ps|
    ensures WalkParts(ps[..i + 1], env) == Then(WalkParts(ps[..i], env), WalkPart(ps[i], env))
  {
    assert ps[..i + 1][..i] == ps[..i];
  }

  /** Once the attachment loop has raised, later headers change nothing. */
  lemma {:induction false} AttachmentScanFailureSticks(hs: seq<Header>, k: nat, p: Part, env: Env)
    requires k <= |hs| && AttachmentScan(hs[..k], p, env).failure.Some?
    ensures AttachmentScan(hs, p, env) == AttachmentScan(hs[..k], p, env)
    decreases |hs| - k
  {
    if k < |hs| {
      assert hs[..k + 1][..k] == hs[..k];
      AttachmentScanFailureSticks(hs, k + 1, p, env);
    } else {
      assert hs[..k] == hs;
    }
  }

  /** Once a part has raised, later siblings are not walked. */
  lemma WalkPartsFailureSticks(ps: seq<Part>, k: nat, env: Env)
    requires k <= |ps| && WalkParts(ps[..k], env).failure.Some?
    ensures WalkParts(ps, env) == WalkParts(ps[..k], env)
  {
    assert ps == ps[..k] + ps[k..];
    SiblingsInOrder(ps[..k], ps[k..], env);
  }
}
