/**
 * `/api/invoices/download`: serves a stored supplier-invoice file to any
 * signed-in user, provided the requested path lies in the upload directory,
 * with a content type chosen from the file's extension.
 */
module InvoiceDownload {
  import opened Base
  import opened Js

  /** The headers of a served file. */
  datatype Served = Served(contentType: string, contentDisposition: string, cacheControl: string)

  /** `disposition === 'inline' ? 'inline' : 'attachment'` */
  function Disposition(param: Option<string>): (d: string)
    ensures d == "inline" <==> param == Some("inline")
    ensures d != "inline" ==> d == "attachment"
  {
    if param == Some("inline") then "inline" else "attachment"
  }

  function LastIndexOf(s: string, c: char): (r: Option<nat>)
    ensures r.Some? ==> r.value < |s| && s[r.value] == c && c !in s[r.value + 1..]
    ensures r.None? ==> c !in s
    decreases |s|
  {
    if s == [] then None
    else if s[|s| - 1] == c then Some(|s| - 1)
    else
      var r := LastIndexOf(s[..|s| - 1], c);
      assert s == s[..|s| - 1] + [s[|s| - 1]];
      r
  }

  /** `path.basename` of a resolved path: what follows the last '/'. */
  function Basename(p: string): (b: string)
    ensures '/' !in b
    ensures |b| <= |p| && b == p[|p| - |b|..]
  {
    match LastIndexOf(p, '/')
    case Some(i) => p[i + 1..]
    case None => p
  }

  /**
   * `path.extname`: the basename from its last '.', or '' when it has none,
   * when that dot starts the name (".env") or when the name is "..".
   */
  function Extname(p: string): (e: string)
    ensures e == "" || (e[0] == '.' && '.' !in e[1..])
  {
    var b := Basename(p);
    if b == ".." then ""
    else match LastIndexOf(b, '.')
      case Some(i) => if i == 0 then "" else b[i..]
      case None => ""
  }

  /** The content type for a lower-cased extension. */
  function ContentType(ext: string): (t: string)
    ensures t == "application/pdf" <==> ext == ".pdf"
    ensures t == "image/png" <==> ext == ".png"
    ensures t == "image/jpeg" <==> ext == ".jpg" || ext == ".jpeg"
    ensures t == "application/octet-stream" <==> !(ext in {".pdf", ".png", ".jpg", ".jpeg"})
  {
    if ext == ".pdf" then "application/pdf"
    else if ext == ".png" then "image/png"
    else if ext == ".jpg" || ext == ".jpeg" then "image/jpeg"
    else "application/octet-stream"
  }

  /** `requested.startsWith(allowed)`, the containment test as written. */
  predicate ContainedAsWritten(requested: string, allowed: string) {
    StartsWith(requested, allowed)
  }

  /** The containment the check means: the base directory itself, or a path below it. */
  predicate Contained(requested: string, allowed: string) {
    requested == allowed || StartsWith(requested, allowed + "/")
  }

  /**
   * What is stored at the resolved path: nothing, a directory or a file.
   * `fs.promises.stat` succeeds for the last two; `fs.promises.readFile`
   * only for a file.
   */
  datatype Entry = NoEntry | Directory | RegularFile

  /** The message of the error `readFile` throws on a directory, answered from the catch block. */
  const DirectoryReadMessage: string := "EISDIR: illegal operation on a directory, read"

  /**
   * GET as a function of its inputs. `requested` and `allowed` are the
   * resolved file path and upload directory (`path.resolve`), `entry` what
   * is stored at `requested`.
   */
  function DownloadOutcome(signedIn: bool, file: Option<string>, disposition: Option<string>, requested: string,
                           allowed: string, entry: Entry): (r: Http<Served>)
    ensures r.Ok? ==>
      r.status == 200 && entry.RegularFile? && (requested == allowed || StartsWith(requested, allowed + "/"))
    ensures r.Err? ==> r.status in {400, 401, 403, 404, 500}
    ensures r.Ok? ==> r.value.contentType in {"application/pdf", "image/png", "image/jpeg", "application/octet-stream"}
  {
    if !signedIn then Err(401, "Unauthorized")
    else if file.None? || file.value == "" then Err(400, "Missing file parameter")
    else if !Contained(requested, allowed) then Err(403, "Forbidden")
    else if entry.NoEntry? then Err(404, "File not found")
    else if entry.Directory? then Err(500, DirectoryReadMessage)
    else
      Ok(200, Served(ContentType(ToLower(Extname(requested))),
                     Disposition(disposition) + "; filename=\"" + Basename(requested) + "\"",
                     "private, no-store"))
  }

  // -------------------------------------------------------------------- lemmas

  /**
   * The refusals, in the order the route checks them. A directory inside the
   * folder (the folder itself, say) passes `stat`, and its read fails.
   */
  lemma Refusals(file: Option<string>, disposition: Option<string>, requested: string, allowed: string, entry: Entry)
    ensures DownloadOutcome(false, file, disposition, requested, allowed, entry) == Err(401, "Unauthorized")
    ensures file.None? || file == Some("") ==>
      DownloadOutcome(true, file, disposition, requested, allowed, entry) == Err(400, "Missing file parameter")
    ensures IsSet(file) && !Contained(requested, allowed) ==>
      DownloadOutcome(true, file, disposition, requested, allowed, entry) == Err(403, "Forbidden")
    ensures IsSet(file) && Contained(requested, allowed) && entry.NoEntry? ==>
      DownloadOutcome(true, file, disposition, requested, allowed, entry) == Err(404, "File not found")
    ensures IsSet(file) && Contained(requested, allowed) && entry.Directory? ==>
      DownloadOutcome(true, file, disposition, requested, allowed, entry) == Err(500, DirectoryReadMessage)
  {
  }

  predicate IsSet(file: Option<string>) {
    file.Some? && file.value != ""
  }

  /** A served file lies in the upload directory, and its headers follow its name and the query. */
  lemma ServedFile(file: Option<string>, disposition: Option<string>, requested: string, allowed: string, entry: Entry)
    ensures var r := DownloadOutcome(true, file, disposition, requested, allowed, entry);
      r.Ok? <==> IsSet(file) && Contained(requested, allowed) && entry.RegularFile?
    ensures var r := DownloadOutcome(true, file, disposition, requested, allowed, entry);
      r.Ok? ==>
        r.value.contentType == ContentType(ToLower(Extname(requested)))
        && StartsWith(r.value.contentDisposition, Disposition(disposition) + "; filename=\"")
        && EndsWith(r.value.contentDisposition, Basename(requested) + "\"")
        && r.value.cacheControl == "private, no-store"
  {
    var r := DownloadOutcome(true, file, disposition, requested, allowed, entry);
    if r.Ok? {
      var pre := Disposition(disposition) + "; filename=\"";
      var post := Basename(requested) + "\"";
      assert r.value.contentDisposition == pre + post;
      ConcatEnds(pre, post);
    }
  }

  /** A concatenation starts with its first part and ends with its second. */
  lemma ConcatEnds(pre: string, post: string)
    ensures StartsWith(pre + post, pre) && EndsWith(pre + post, post)
  {
    assert (pre + post)[..|pre|] == pre;
    assert (pre + post)[|pre + post| - |post|..] == post;
  }

  /** The extension is compared case-insensitively. */
  lemma ExtensionCase()
    ensures ContentType(ToLower(".PDF")) == "application/pdf"
    ensures ContentType(ToLower(".JpEg")) == "image/jpeg"
    ensures ContentType(ToLower(".gif")) == "application/octet-stream"
  {
    assert ToLower(".PDF") == ".pdf";
    assert ToLower(".JpEg") == ".jpeg";
    assert ToLower(".gif") == ".gif";
  }

  /** Only the last dot of the file name counts. */
  lemma LastDotCounts()
    ensures Extname("/i/a.b.PNG") == ".PNG"
  {
    assert "/i/a.b.PNG"[3..] == "a.b.PNG";
    LastIndexAt("/i/a.b.PNG", '/', 2);
    assert "a.b.PNG"[4..] == "PNG";
    LastIndexAt("a.b.PNG", '.', 3);
  }

  /** A name starting with its only dot has no extension. */
  lemma LeadingDotIsNoExtension()
    ensures Extname("/i/.env") == ""
  {
    assert "/i/.env"[3..] == ".env";
    LastIndexAt("/i/.env", '/', 2);
    assert ".env"[1..] == "env";
    LastIndexAt(".env", '.', 0);
  }

  /** The last occurrence is the one with no other after it. */
  lemma LastIndexAt(s: string, c: char, j: nat)
    requires j < |s| && s[j] == c && c !in s[j + 1..]
    ensures LastIndexOf(s, c) == Some(j)
  {
    assert s[j] == c;
  }

  /** A dot in a directory name is no extension of the file. */
  lemma DirectoryDotIgnored()
    ensures Extname("/i.d/x") == ""
  {
    assert LastIndexOf("/i.d/x", '/') == Some(4) by {
      assert "/i.d/x"[..5] == "/i.d/";
    }
    assert Basename("/i.d/x") == "x";
    assert LastIndexOf("x", '.') == None by {
      assert "x"[..0] == "";
    }
  }

  /**
   * The check as written admits a sibling directory whose name extends the
   * upload directory's: `/srv/.uploads/invoices-old/x.pdf` passes
   * `startsWith('/srv/.uploads/invoices')`.
   */
  lemma SiblingDirectoryAdmitted()
    ensures ContainedAsWritten("/srv/.uploads/invoices-old/x.pdf", "/srv/.uploads/invoices")
    ensures !Contained("/srv/.uploads/invoices-old/x.pdf", "/srv/.uploads/invoices")
  {
    var r := "/srv/.uploads/invoices-old/x.pdf";
    var a := "/srv/.uploads/invoices";
    assert r[..|a|] == a;
    assert r[|a|] == '-';
    assert (a + "/")[|a|] == '/';
  }

  /**
   * The corrected check accepts exactly the paths that continue the base
   * directory at a separator; it is stricter than the one as written, and
   * they differ only on such sibling names.
   */
  lemma ContainedSpec(requested: string, allowed: string)
    ensures Contained(requested, allowed)
      <==> (StartsWith(requested, allowed) && (|requested| == |allowed| || requested[|allowed|] == '/'))
    ensures Contained(requested, allowed) ==> ContainedAsWritten(requested, allowed)
    ensures ContainedAsWritten(requested, allowed) && !Contained(requested, allowed)
      ==> |requested| > |allowed| && requested[|allowed|] != '/'
  {
    var withSep := allowed + "/";
    if StartsWith(requested, withSep) {
      assert requested[..|allowed|] == withSep[..|allowed|];
      assert withSep[..|allowed|] == allowed;
    }
    if StartsWith(requested, allowed) && |requested| > |allowed| && requested[|allowed|] == '/' {
      assert requested[..|withSep|] == requested[..|allowed|] + [requested[|allowed|]];
    }
    if StartsWith(requested, allowed) && |requested| == |allowed| {
      assert requested == requested[..|allowed|];
    }
  }

  /** Disposition is inline only for exactly `inline`. */
  lemma DispositionChoice()
    ensures Disposition(Some("inline")) == "inline"
    ensures Disposition(Some("Inline")) == "attachment"
    ensures Disposition(None) == "attachment"
  {
  }
}
