/**
 * The records the collector produces for one message: the content bundle
 * that the part walk accumulates, the metadata record, and the files it
 * writes.
 */
module Records {
  import opened Wrappers
  import opened GmailApi

  /** `{texts, htmls, attachments}`: decoded plain texts, and the paths of the HTML and attachment files written. */
  datatype Contents = Contents(texts: seq<string>, htmls: seq<string>, attachments: seq<string>)

  const NoContents := Contents([], [], [])

  /** The bundle `a` followed by the bundle `b`, list by list (the source's `+=` on each list). */
  function Cat(a: Contents, b: Contents): Contents
  {
    Contents(a.texts + b.texts, a.htmls + b.htmls, a.attachments + b.attachments)
  }

  /**
   * The metadata record of a message.  `from`, `to` and `date` are absent
   * from the record when the message has no such header.
   */
  datatype Metadata = Metadata(
    messageId: string,
    labelIds: seq<string>,
    from: Option<string>,
    to: Option<string>,
    subject: string,
    date: Option<string>,
    contents: Contents)

  /** What a file write puts in the file. */
  datatype FileContent =
    | Raw(bytes: Bytes)              // decoded bytes of an HTML part or an attachment
    | MessageJson(message: Message)  // json.dump of the message as fetched
    | MetadataJson(meta: Metadata)   // json.dump of the metadata record

  /** One `open(path, ...)` followed by a write; a later write to the same path replaces the file. */
  datatype FileWrite = FileWrite(path: string, content: FileContent)

  /** `os.path.join(a, b)` on POSIX: an absolute `b` replaces `a`; otherwise one `/` separates them. */
  function PathJoin(a: string, b: string): (r: string)
    ensures |b| > 0 && b[0] == '/' ==> r == b
    ensures !(|b| > 0 && b[0] == '/') ==> |a| + |b| <= |r| && r[..|a|] == a && r[|r| - |b|..] == b
  {
    if |b| > 0 && b[0] == '/' then b
    else if a == [] || a[|a| - 1] == '/' then a + b
    else a + "/" + b
  }

  lemma AppendAssoc<T>(a: seq<T>, b: seq<T>, c: seq<T>)
    ensures a + b + c == a + (b + c)
  {
  }

  /** Two writes after a run of writes extend the log by the run and then the two. */
  lemma AppendWrites(log: seq<FileWrite>, run: seq<FileWrite>, a: FileWrite, b: FileWrite)
    ensures log + run + [a] + [b] == log + (run + [a, b])
  {
  }
}
