/** The `gdrive` tool: list, search, read, upload, create folders and share
    files on Google Drive. The Drive API is an input (`Drive`); the queries
    the tool writes, the limits it enforces and the requests it makes are
    modelled. */
module Drive {
  import opened Common
  import opened ToolArgs

  const FolderType: string := "application/vnd.google-apps.folder"
  const DocType: string := "application/vnd.google-apps.document"
  const SheetType: string := "application/vnd.google-apps.spreadsheet"
  const SlidesType: string := "application/vnd.google-apps.presentation"

  const DefaultFolder: string := "root"
  const DefaultPageSize: int := 20
  const DefaultUploadType: string := "text/plain"
  const DefaultRole: string := "reader"

  /** A file as listed. */
  datatype FileInfo = FileInfo(id: string, name: string, mimeType: string, modifiedTime: string)

  /** A file's metadata as `read` fetches it; `size` is in bytes. */
  datatype FileMeta = FileMeta(name: string, mimeType: string, size: int)

  // =====================================================================
  // Queries
  // =====================================================================

  /** A query already written in the Drive query language: it uses `in`,
      `=` or `contains`. */
  predicate IsOperatorQuery(q: string) {
    Contains(q, " in ") || Contains(q, "=") || Contains(q, "contains")
  }

  /** The query `search` sends: plain text becomes a search on names among
      files not in the trash. */
  function SearchQuery(q: string): string {
    if !IsOperatorQuery(q) then "name contains '" + q + "' and trashed = false" else q
  }

  /** The query `listFiles` sends for a folder. */
  function FolderQuery(folderID: string): string {
    "'" + folderID + "' in parents and trashed = false"
  }

  lemma OccursAtContains(s: string, sub: string, i: int)
    requires OccursAt(s, sub, i)
    ensures Contains(s, sub)
  {
  }

  /** A wrapped query is an operator query, so wrapping happens at most
      once; an operator query is passed on as it is. */
  lemma SearchQueryWraps(q: string)
    ensures IsOperatorQuery(q) ==> SearchQuery(q) == q
    ensures !IsOperatorQuery(q) ==> HasPrefix(SearchQuery(q), "name contains '" + q + "'")
    ensures IsOperatorQuery(SearchQuery(q))
    ensures SearchQuery(SearchQuery(q)) == SearchQuery(q)
  {
    if !IsOperatorQuery(q) {
      var w := SearchQuery(q);
      var lead := "name contains '" + q + "'";
      assert w == lead + " and trashed = false";
      assert w[..|lead|] == lead;
      assert w[5..13] == "contains";
      OccursAtContains(w, "contains", 5);
    }
  }

  // =====================================================================
  // Listings
  // =====================================================================

  function TypeLabel(mimeType: string): string {
    if mimeType == FolderType then "folder" else "file"
  }

  function FileEntry(n: int, f: FileInfo): string {
    Itoa(n) + ". " + f.name + " [" + TypeLabel(f.mimeType) + "]\n   ID: " + f.id
      + "\n   Type: " + f.mimeType + "\n   Modified: " + f.modifiedTime + "\n\n"
  }

  function ResultEntry(n: int, f: FileInfo): string {
    Itoa(n) + ". " + f.name + "\n   ID: " + f.id
      + "\n   Type: " + f.mimeType + "\n   Modified: " + f.modifiedTime + "\n\n"
  }

  /** The listing of `listFiles`, numbered from 1 in the order returned. */
  function FilesText(fs: seq<FileInfo>): string {
    "Files (" + Itoa(|fs|) + "):\n\n" + Numbered(FileEntry, fs, 1)
  }

  /** The listing of `search`. */
  function ResultsText(fs: seq<FileInfo>): string {
    "Search results (" + Itoa(|fs|) + "):\n\n" + Numbered(ResultEntry, fs, 1)
  }

  /** Folders are labelled "folder" and everything else "file". */
  lemma FolderLabel(f: FileInfo)
    ensures TypeLabel(f.mimeType) == "folder" <==> f.mimeType == FolderType
    ensures TypeLabel(f.mimeType) in {"folder", "file"}
  {
  }

  /** The loop of `listFiles`. */
  method FormatFiles(fs: seq<FileInfo>) returns (s: string)
    ensures s == FilesText(fs)
  {
    var lead := "Files (" + Itoa(|fs|) + "):\n\n";
    s := lead;
    for i := 0 to |fs|
      invariant s == lead + Numbered(FileEntry, fs[..i], 1)
    {
      NumberedSnoc(FileEntry, fs, i, 1);
      var f := fs[i];
      var typeLabel := "file";
      if f.mimeType == FolderType {
        typeLabel := "folder";
      }
      var e := Itoa(i + 1) + ". " + f.name + " [" + typeLabel + "]\n   ID: " + f.id
        + "\n   Type: " + f.mimeType + "\n   Modified: " + f.modifiedTime + "\n\n";
      AppendAssoc(lead, Numbered(FileEntry, fs[..i], 1), e);
      s := s + e;
    }
    assert fs[..|fs|] == fs;
  }

  /** The loop of `search`. */
  method FormatResults(fs: seq<FileInfo>) returns (s: string)
    ensures s == ResultsText(fs)
  {
    var lead := "Search results (" + Itoa(|fs|) + "):\n\n";
    s := lead;
    for i := 0 to |fs|
      invariant s == lead + Numbered(ResultEntry, fs[..i], 1)
    {
      NumberedSnoc(ResultEntry, fs, i, 1);
      var e := ResultEntry(i + 1, fs[i]);
      AppendAssoc(lead, Numbered(ResultEntry, fs[..i], 1), e);
      s := s + e;
    }
    assert fs[..|fs|] == fs;
  }

  // =====================================================================
  // read: export, size limit, truncation
  // =====================================================================

  /** Google documents are exported: Docs and Slides as plain text, Sheets
      as CSV. Other files are downloaded. */
  function ExportType(mimeType: string): Option<string> {
    if mimeType == DocType || mimeType == SlidesType then Some("text/plain")
    else if mimeType == SheetType then Some("text/csv")
    else None
  }

  /** The largest regular file `read` downloads, in bytes (1 MiB). */
  const MaxDownload: int := 1048576
  const MaxContent: nat := 50000
  const TruncationNote: string := "\n\n[... truncated at 50000 chars]"

  function Truncated(content: string): string {
    if |content| > MaxContent then content[..MaxContent] + TruncationNote else content
  }

  /** Content is never shown longer than the limit plus the note; short
      content is shown whole and long content keeps its beginning. */
  lemma TruncatedBounds(content: string)
    ensures |Truncated(content)| <= MaxContent + |TruncationNote|
    ensures |content| <= MaxContent ==> Truncated(content) == content
    ensures |content| > MaxContent ==>
      (Truncated(content)[..MaxContent] == content[..MaxContent]
       && HasSuffix(Truncated(content), TruncationNote))
  {
    if |content| > MaxContent {
      var t := Truncated(content);
      assert t[..MaxContent] == content[..MaxContent];
      assert t[|t| - |TruncationNote|..] == TruncationNote;
    }
  }

  function ReadText(meta: FileMeta, content: string): string {
    "File: " + meta.name + "\nType: " + meta.mimeType + "\n\n" + Truncated(content)
  }

  function TooLarge(size: int): string {
    "file too large to read (" + Itoa(size) + " bytes). Max 1MB for text content."
  }

  // =====================================================================
  // Execute
  // =====================================================================

  /** A file `upload` or `createFolder` creates; `content` is `None` for a
      folder. */
  datatype NewFile = NewFile(name: string, mimeType: string, parents: seq<string>, content: Option<string>)

  datatype Permission = Permission(kind: string, role: string, email: string)

  /** The request that reads or changes the drive, if the action makes one. */
  datatype Call =
    | Export(fileID: string, exportType: string)
    | Download(fileID: string)
    | Create(file: NewFile)
    | Share(fileID: string, permission: Permission)

  datatype Effect = Effect(result: ToolResult, call: Option<Call>)

  datatype CreatedFile = CreatedFile(id: string, name: string, webViewLink: string)

  /** The Drive API as the tool sees it. `service` is the error of
      `drive.NewService`, if any. `list` answers a query with a page size
      (and whether results are ordered by modification time); `share`
      answers with its error, if any. */
  datatype Drive = Drive(
    service: Option<string>,
    list: (string, int, bool) -> Result<seq<FileInfo>>,
    get: string -> Result<FileMeta>,
    exportAs: (string, string) -> Result<string>,
    download: string -> Result<string>,
    create: NewFile -> Result<CreatedFile>,
    share: (string, Permission) -> Option<string>)

  const Actions: seq<string> := ["list_files", "search", "read", "upload", "create_folder", "share"]

  function ListOutcome(args: Args, d: Drive): ToolResult {
    var folder := match NonEmptyArg(args, "folder_id") case Some(f) => f case None => DefaultFolder;
    match d.list(FolderQuery(folder), PositiveOr(args, "max_results", DefaultPageSize), true)
    case Err(e) => ErrorResult("failed to list files: " + e)
    case Ok(fs) => if fs == [] then SilentResult("No files found.") else SilentResult(FilesText(fs))
  }

  function SearchOutcome(args: Args, d: Drive): ToolResult {
    match NonEmptyArg(args, "query")
    case None => ErrorResult("query is required for search")
    case Some(q) =>
      match d.list(SearchQuery(q), PositiveOr(args, "max_results", DefaultPageSize), false)
      case Err(e) => ErrorResult("search failed: " + e)
      case Ok(fs) =>
        if fs == [] then SilentResult("No files found matching the query.")
        else SilentResult(ResultsText(fs))
  }

  /** What the export or download names when it fails. */
  function FetchFailure(mimeType: string): string {
    if mimeType == DocType then "failed to export document: "
    else if mimeType == SheetType then "failed to export spreadsheet: "
    else if mimeType == SlidesType then "failed to export presentation: "
    else "failed to download file: "
  }

  function ReadOutcome(args: Args, d: Drive): Effect {
    match NonEmptyArg(args, "file_id")
    case None => Effect(ErrorResult("file_id is required for read"), None)
    case Some(id) =>
      match d.get(id)
      case Err(e) => Effect(ErrorResult("failed to get file: " + e), None)
      case Ok(meta) =>
        match ExportType(meta.mimeType)
        case Some(t) =>
          var got := d.exportAs(id, t);
          if got.Err? then Effect(ErrorResult(FetchFailure(meta.mimeType) + got.msg), Some(Export(id, t)))
          else Effect(SilentResult(ReadText(meta, got.value)), Some(Export(id, t)))
        case None =>
          if meta.size > MaxDownload then Effect(ErrorResult(TooLarge(meta.size)), None)
          else
            var got := d.download(id);
            if got.Err? then Effect(ErrorResult(FetchFailure(meta.mimeType) + got.msg), Some(Download(id)))
            else Effect(SilentResult(ReadText(meta, got.value)), Some(Download(id)))
  }

  /** The file `upload` creates, or nothing when name or content is missing. */
  function UploadFile(args: Args): Option<NewFile> {
    var name := StringOr(args, "name");
    var content := StringOr(args, "content");
    if name == "" || content == "" then None
    else
      var mimeType := match NonEmptyArg(args, "mime_type") case Some(m) => m case None => DefaultUploadType;
      var parents := match NonEmptyArg(args, "folder_id") case Some(f) => [f] case None => [];
      Some(NewFile(name, mimeType, parents, Some(content)))
  }

  /** The folder `createFolder` creates, or nothing without a name. */
  function NewFolder(args: Args): Option<NewFile> {
    var name := StringOr(args, "name");
    if name == "" then None
    else
      var parents := match NonEmptyArg(args, "parent_id") case Some(p) => [p] case None => [];
      Some(NewFile(name, FolderType, parents, None))
  }

  function UploadOutcome(args: Args, d: Drive): Effect {
    match UploadFile(args)
    case None => Effect(ErrorResult("name and content are required for upload"), None)
    case Some(f) =>
      match d.create(f)
      case Err(e) => Effect(ErrorResult("failed to upload file: " + e), Some(Create(f)))
      case Ok(c) => Effect(SilentResult("File uploaded: " + c.name + "\nID: " + c.id + "\nLink: " + c.webViewLink), Some(Create(f)))
  }

  function FolderOutcome(args: Args, d: Drive): Effect {
    match NewFolder(args)
    case None => Effect(ErrorResult("name is required for create_folder"), None)
    case Some(f) =>
      match d.create(f)
      case Err(e) => Effect(ErrorResult("failed to create folder: " + e), Some(Create(f)))
      case Ok(c) => Effect(SilentResult("Folder created: " + c.name + " (ID: " + c.id + ")"), Some(Create(f)))
  }

  /** The permission `share` grants: to a user, as a reader unless a role
      is given. */
  function Grant(args: Args): Permission {
    Permission("user", match NonEmptyArg(args, "role") case Some(r) => r case None => DefaultRole,
               StringOr(args, "email"))
  }

  function ShareOutcome(args: Args, d: Drive): Effect {
    var id := StringOr(args, "file_id");
    var email := StringOr(args, "email");
    if id == "" || email == "" then Effect(ErrorResult("file_id and email are required for share"), None)
    else
      var p := Grant(args);
      match d.share(id, p)
      case Some(e) => Effect(ErrorResult("failed to share file: " + e), Some(Share(id, p)))
      case None => Effect(SilentResult("File shared with " + email + " as " + p.role), Some(Share(id, p)))
  }

  /** What `Execute` returns and requests for the given arguments. */
  function Outcome(args: Args, d: Drive): Effect {
    var action := StringOr(args, "action");
    if d.service.Some? then Effect(ErrorResult("drive service error: " + d.service.value), None)
    else if action == "list_files" then Effect(ListOutcome(args, d), None)
    else if action == "search" then Effect(SearchOutcome(args, d), None)
    else if action == "read" then ReadOutcome(args, d)
    else if action == "upload" then UploadOutcome(args, d)
    else if action == "create_folder" then FolderOutcome(args, d)
    else if action == "share" then ShareOutcome(args, d)
    else Effect(ErrorResult("unknown gdrive action: " + action), None)
  }

  /** Any other action is an error and makes no request. */
  lemma UnknownAction(args: Args, d: Drive)
    requires d.service.None? && StringOr(args, "action") !in Actions
    ensures Outcome(args, d) == Effect(ErrorResult("unknown gdrive action: " + StringOr(args, "action")), None)
  {
  }

  /** A regular file over 1 MiB is refused before anything is downloaded;
      Google documents are exported whatever their size, and what is shown
      is cut to the content limit. */
  lemma ReadLimits(args: Args, d: Drive)
    requires d.service.None? && StringOr(args, "action") == "read"
    requires StringOr(args, "file_id") != "" && d.get(StringOr(args, "file_id")).Ok?
    ensures var id := StringOr(args, "file_id");
      var meta := d.get(id).value;
      var o := Outcome(args, d);
      && (ExportType(meta.mimeType).None? && meta.size > MaxDownload ==>
            o == Effect(ErrorResult(TooLarge(meta.size)), None))
      && (ExportType(meta.mimeType).None? && meta.size <= MaxDownload ==> o.call == Some(Download(id)))
      && (meta.mimeType == SheetType ==> o.call == Some(Export(id, "text/csv")))
      && (meta.mimeType == DocType || meta.mimeType == SlidesType ==> o.call == Some(Export(id, "text/plain")))
      && (!o.result.isError ==> |o.result.forLLM| <= |"File: " + meta.name + "\nType: " + meta.mimeType + "\n\n"| + MaxContent + |TruncationNote|)
  {
    var id := StringOr(args, "file_id");
    var meta := d.get(id).value;
    match ExportType(meta.mimeType)
    case Some(t) =>
      if d.exportAs(id, t).Ok? { TruncatedBounds(d.exportAs(id, t).value); }
    case None =>
      if meta.size <= MaxDownload && d.download(id).Ok? { TruncatedBounds(d.download(id).value); }
  }

  /** `upload` stores the content under the given name, as plain text by
      default, inside the given folder only when one is named. */
  lemma UploadDefaults(args: Args)
    requires UploadFile(args).Some?
    ensures var f := UploadFile(args).value;
      && f.name == StringOr(args, "name") != "" && f.content == Some(StringOr(args, "content"))
      && (StringOr(args, "mime_type") == "" ==> f.mimeType == DefaultUploadType)
      && (StringOr(args, "folder_id") == "" <==> f.parents == [])
      && |f.parents| <= 1
  {
  }

  /** A new folder has the folder type and at most the named parent. */
  lemma FolderDefaults(args: Args)
    requires NewFolder(args).Some?
    ensures var f := NewFolder(args).value;
      && f.mimeType == FolderType && f.content.None?
      && (StringOr(args, "parent_id") == "" <==> f.parents == [])
  {
  }

  /** Sharing grants a user permission, read-only unless a role is given. */
  lemma ShareDefaults(args: Args, d: Drive)
    requires d.service.None? && StringOr(args, "action") == "share"
    requires StringOr(args, "file_id") != "" && StringOr(args, "email") != ""
    ensures Outcome(args, d).call.Some? && Outcome(args, d).call.value.Share?
    ensures var p := Outcome(args, d).call.value.permission;
      && p.kind == "user" && p.email == StringOr(args, "email")
      && (StringOr(args, "role") == "" ==> p.role == DefaultRole)
  {
  }

  /** Requests that change the drive come only from upload, create_folder
      and share, with their required arguments present. */
  lemma ChangesNeedArguments(args: Args, d: Drive)
    requires Outcome(args, d).call.Some?
    requires Outcome(args, d).call.value.Create? || Outcome(args, d).call.value.Share?
    ensures var action := StringOr(args, "action");
      && d.service.None?
      && (action == "upload" || action == "create_folder" || action == "share")
      && (action == "upload" ==> StringOr(args, "name") != "" && StringOr(args, "content") != "")
      && (action == "create_folder" ==> StringOr(args, "name") != "")
      && (action == "share" ==> StringOr(args, "file_id") != "" && StringOr(args, "email") != "")
  {
  }

  method ListFiles(args: Args, d: Drive) returns (r: ToolResult)
    ensures r == ListOutcome(args, d)
  {
    var folderID := DefaultFolder;
    var v := StringOr(args, "folder_id");
    if v != "" {
      folderID := v;
    }
    var maxResults := DefaultPageSize;
    var n := NumberArg(args, "max_results");
    if n.Some? && n.value > 0 {
      maxResults := n.value;
    }
    var listed := d.list(FolderQuery(folderID), maxResults, true);
    if listed.Err? {
      return ErrorResult("failed to list files: " + listed.msg);
    }
    if listed.value == [] {
      return SilentResult("No files found.");
    }
    var text := FormatFiles(listed.value);
    r := SilentResult(text);
  }

  method Search(args: Args, d: Drive) returns (r: ToolResult)
    ensures r == SearchOutcome(args, d)
  {
    var query := StringOr(args, "query");
    if query == "" {
      return ErrorResult("query is required for search");
    }
    var maxResults := DefaultPageSize;
    var n := NumberArg(args, "max_results");
    if n.Some? && n.value > 0 {
      maxResults := n.value;
    }
    if !Contains(query, " in ") && !Contains(query, "=") && !Contains(query, "contains") {
      query := "name contains '" + query + "' and trashed = false";
    }
    var listed := d.list(query, maxResults, false);
    if listed.Err? {
      return ErrorResult("search failed: " + listed.msg);
    }
    if listed.value == [] {
      return SilentResult("No files found matching the query.");
    }
    var text := FormatResults(listed.value);
    r := SilentResult(text);
  }

  /** `read`: fetch the metadata, export or download, then truncate. */
  method Read(args: Args, d: Drive) returns (r: ToolResult, call: Option<Call>)
    ensures Effect(r, call) == ReadOutcome(args, d)
  {
    var id := StringOr(args, "file_id");
    if id == "" {
      return ErrorResult("file_id is required for read"), None;
    }
    var got := d.get(id);
    if got.Err? {
      return ErrorResult("failed to get file: " + got.msg), None;
    }
    var meta := got.value;
    var content: string;
    var exportType := ExportType(meta.mimeType);
    if exportType.Some? {
      call := Some(Export(id, exportType.value));
      var data := d.exportAs(id, exportType.value);
      if data.Err? {
        return ErrorResult(FetchFailure(meta.mimeType) + data.msg), call;
      }
      content := data.value;
    } else {
      if meta.size > MaxDownload {
        return ErrorResult(TooLarge(meta.size)), None;
      }
      call := Some(Download(id));
      var data := d.download(id);
      if data.Err? {
        return ErrorResult(FetchFailure(meta.mimeType) + data.msg), call;
      }
      content := data.value;
    }
    if |content| > MaxContent {
      content := content[..MaxContent] + TruncationNote;
    }
    r := SilentResult("File: " + meta.name + "\nType: " + meta.mimeType + "\n\n" + content);
  }

  /** `Execute`: create the service, then dispatch on the action. */
  method Execute(args: Args, d: Drive) returns (r: ToolResult, call: Option<Call>)
    ensures Effect(r, call) == Outcome(args, d)
  {
    var action := StringOr(args, "action");
    call := None;
    if d.service.Some? {
      return ErrorResult("drive service error: " + d.service.value), None;
    }
    if action == "list_files" {
      r := ListFiles(args, d);
    } else if action == "search" {
      r := Search(args, d);
    } else if action == "read" {
      r, call := Read(args, d);
    } else if action == "upload" {
      var e := UploadOutcome(args, d);
      r, call := e.result, e.call;
    } else if action == "create_folder" {
      var e := FolderOutcome(args, d);
      r, call := e.result, e.call;
    } else if action == "share" {
      var e := ShareOutcome(args, d);
      r, call := e.result, e.call;
    } else {
      r := ErrorResult("unknown gdrive action: " + action);
    }
  }
}
