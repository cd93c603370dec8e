/**
 * The output store: the flat directory of generated audio files, how it is
 * listed (GET /api/files) and how one file is served (GET /api/download/:filename).
 */
module Storage {
  import opened Wrappers
  import Decimal
  import Paths

  newtype byte = b: int | 0 <= b < 256
  type Bytes = seq<byte>

  /**
   * How the filesystem answers the two operations the service makes before and
   * while producing a target file, keyed by that file's name; None is success.
   * Each target gets its own answers, so a directory that becomes unwritable or a
   * disk that fills part-way through a batch fails only the later items.
   */
  datatype Faults = Faults(mkdirErr: string -> Option<string>, writeErr: string -> Option<string>)

  /**
   * The output directory: its regular files by name, and the errors os.MkdirAll
   * and os.WriteFile report for each target.
   */
  class Store {
    var files: map<string, Bytes>
    const faults: Faults

    constructor (files: map<string, Bytes>, faults: Faults)
      ensures this.files == files && this.faults == faults
    {
      this.files := files;
      this.faults := faults;
    }

    /** os.MkdirAll on the output directory, made before producing `target`. */
    method MkdirAll(target: string) returns (err: Option<string>)
      ensures err == faults.mkdirErr(target)
    {
      err := faults.mkdirErr(target);
    }

    /** os.WriteFile: replaces the whole file, or fails and leaves the directory as it was. */
    method WriteFile(name: string, data: Bytes) returns (err: Option<string>)
      modifies this`files
      ensures err == faults.writeErr(name)
      ensures files == if err.None? then old(files)[name := data] else old(files)
    {
      err := faults.writeErr(name);
      if err.None? {
        files := files[name := data];
      }
    }

    /** A file the speech provider streams into the directory on its own. */
    method Deposit(name: string, data: Bytes)
      modifies this`files
      ensures files == old(files)[name := data]
    {
      files := files[name := data];
    }
  }

  /** The directory after `name` is (re)written with the given bytes, or left alone on None. */
  function Put(files: map<string, Bytes>, name: string, data: Option<Bytes>): (r: map<string, Bytes>)
    ensures data.Some? ==> name in r && r[name] == data.value
    ensures data.None? ==> r == files
    ensures r.Keys <= files.Keys + {name}
    ensures r - {name} == files - {name}
  {
    if data.Some? then files[name := data.value] else files
  }

  // ---------------------------------------------------------------- listing

  /** One entry of os.ReadDir; the modification time is kept as its RFC 3339 text. */
  datatype DirEntry = DirEntry(name: string, isDir: bool, size: int, modTime: string)

  /** The result of os.ReadDir on the output directory. */
  datatype DirListing = DirRead(entries: seq<DirEntry>) | DirUnreadable(detail: string)

  /** One element of the `files` array of the listing. */
  datatype AudioFile = AudioFile(filename: string, size: int, modifiedAt: string, downloadUrl: string)

  datatype ListResponse =
    | Listing(files: seq<AudioFile>, total: int, limit: int)
    | ListError(error: string)
  {
    function Status(): int {
      if Listing? then 200 else 500
    }
  }

  const DefaultLimit: int := 50
  const DownloadPrefix: string := "/api/download/"
  const ReadDirFailed: string := "读取目录失败: "

  predicate IsAudioName(name: string) {
    Paths.Ext(name) == ".wav" || Paths.Ext(name) == ".mp3"
  }

  /** An entry the listing reports: not a directory, extension exactly ".wav" or ".mp3". */
  predicate IsAudioEntry(e: DirEntry) {
    !e.isDir && IsAudioName(e.name)
  }

  /** The listing entry of a directory entry. */
  function Describe(e: DirEntry): AudioFile {
    AudioFile(e.name, e.size, e.modTime, DownloadPrefix + e.name)
  }

  /**
   * A listing entry carries its directory entry's name, size and time, and a
   * link under the download route whose path parameter is that same name.
   */
  lemma DescribeLinksToEntry(e: DirEntry)
    ensures var f := Describe(e);
      && f.filename == e.name && f.size == e.size && f.modifiedAt == e.modTime
      && |f.downloadUrl| == |DownloadPrefix| + |e.name|
      && f.downloadUrl[..|DownloadPrefix|] == DownloadPrefix && f.downloadUrl[|DownloadPrefix|..] == f.filename
  {
  }

  /** Every audio entry of the directory, described, in enumeration order. */
  function Qualifying(entries: seq<DirEntry>): (r: seq<AudioFile>)
    ensures |r| <= |entries|
  {
    if entries == [] then []
    else
      var last := entries[|entries| - 1];
      Qualifying(entries[..|entries| - 1]) + if IsAudioEntry(last) then [Describe(last)] else []
  }

  /** The value of the `limit` query parameter: a valid integer replaces the default 50. */
  function ParseLimit(query: string): (limit: int)
    ensures query == "" || Decimal.Atoi(query).None? ==> limit == DefaultLimit
    ensures Decimal.Atoi(query).Some? ==> limit == Decimal.Atoi(query).value
  {
    if query != "" && Decimal.Atoi(query).Some? then Decimal.Atoi(query).value else DefaultLimit
  }

  /** The first `limit` audio entries (none for a limit of zero or less). */
  function Listed(entries: seq<DirEntry>, limit: int): (r: seq<AudioFile>)
    ensures |r| <= if limit < 0 then 0 else limit
    ensures |r| == if limit <= 0 then 0 else if limit < |Qualifying(entries)| then limit else |Qualifying(entries)|
    ensures r == Qualifying(entries)[..|r|]
  {
    var q := Qualifying(entries);
    q[..if limit <= 0 then 0 else if limit < |q| then limit else |q|]
  }

  /** Listing a concatenation lists the parts one after the other. */
  lemma {:induction false} QualifyingAppend(a: seq<DirEntry>, b: seq<DirEntry>)
    ensures Qualifying(a + b) == Qualifying(a) + Qualifying(b)
    decreases |b|
  {
    if b != [] {
      var shorter := b[..|b| - 1];
      assert (a + b)[..|a + b| - 1] == a + shorter;
      QualifyingAppend(a, shorter);
    } else {
      assert a + b == a;
    }
  }

  /** A file is described by the listing exactly when some audio entry of the directory yields it. */
  lemma {:induction false} QualifyingMembers(entries: seq<DirEntry>, f: AudioFile)
    ensures f in Qualifying(entries) <==>
      exists j :: 0 <= j < |entries| && IsAudioEntry(entries[j]) && f == Describe(entries[j])
    decreases |entries|
  {
    if entries != [] {
      var prefix := entries[..|entries| - 1];
      QualifyingMembers(prefix, f);
      if f in Qualifying(prefix) {
        var j :| 0 <= j < |prefix| && IsAudioEntry(prefix[j]) && f == Describe(prefix[j]);
        assert entries[j] == prefix[j];
      }
      if exists j :: 0 <= j < |entries| && IsAudioEntry(entries[j]) && f == Describe(entries[j]) {
        var j :| 0 <= j < |entries| && IsAudioEntry(entries[j]) && f == Describe(entries[j]);
        if j < |prefix| {
          assert prefix[j] == entries[j];
        }
      }
    }
  }

  /** Every listed file comes from a non-directory ".wav"/".mp3" entry and links to its download. */
  lemma ListedAreAudio(entries: seq<DirEntry>, limit: int, k: nat)
    requires k < |Listed(entries, limit)|
    ensures var f := Listed(entries, limit)[k];
      IsAudioName(f.filename) && f.downloadUrl == DownloadPrefix + f.filename &&
      exists j :: 0 <= j < |entries| && !entries[j].isDir && entries[j].name == f.filename && entries[j].size == f.size
  {
    var f := Listed(entries, limit)[k];
    assert f in Qualifying(entries);
    QualifyingMembers(entries, f);
  }

  /** One more entry extends the listing by that entry's description, if it is audio. */
  lemma QualifyingStep(entries: seq<DirEntry>, i: nat)
    requires i < |entries|
    ensures Qualifying(entries[..i + 1]) ==
      Qualifying(entries[..i]) + if IsAudioEntry(entries[i]) then [Describe(entries[i])] else []
  {
    assert entries[..i + 1][..i] == entries[..i];
  }

  /** The files taken from the first i entries are the listing, once the scan
      reached the end or collected `limit` files. */
  lemma TakenIsListed(entries: seq<DirEntry>, i: nat, limit: int)
    requires i <= |entries|
    requires |Qualifying(entries[..i])| <= if limit < 0 then 0 else limit
    requires i == |entries| || |Qualifying(entries[..i])| >= limit
    ensures Qualifying(entries[..i]) == Listed(entries, limit)
  {
    assert entries == entries[..i] + entries[i..];
    QualifyingAppend(entries[..i], entries[i..]);
  }

  /**
   * GET /api/files: reads `limit`, enumerates the directory, and collects audio
   * entries until `limit` of them have been taken.
   */
  method ListAudioFiles(limitQuery: string, dir: DirListing) returns (resp: ListResponse)
    ensures dir.DirUnreadable? ==> resp == ListError(ReadDirFailed + dir.detail)
    ensures dir.DirRead? ==>
      var limit := ParseLimit(limitQuery);
      resp == Listing(Listed(dir.entries, limit), |Listed(dir.entries, limit)|, limit)
  {
    var limit := DefaultLimit;
    if limitQuery != "" {
      var parsed := Decimal.Atoi(limitQuery);
      if parsed.Some? {
        limit := parsed.value;
      }
    }

    if dir.DirUnreadable? {
      return ListError(ReadDirFailed + dir.detail);
    }
    var audioFiles := CollectAudio(dir.entries, limit);
    resp := Listing(audioFiles, |audioFiles|, limit);
  }

  /**
   * The scan of GET /api/files: entries in enumeration order, stopping before
   * the next entry once `limit` audio files have been taken.
   */
  method CollectAudio(entries: seq<DirEntry>, limit: int) returns (audioFiles: seq<AudioFile>)
    ensures audioFiles == Listed(entries, limit)
  {
    audioFiles := [];
    var count := 0;
    var i := 0;
    while i < |entries|
      invariant 0 <= i <= |entries|
      invariant audioFiles == Qualifying(entries[..i])
      invariant count == |audioFiles|
      invariant count <= if limit < 0 then 0 else limit
    {
      if count >= limit {
        break;
      }
      var file := entries[i];
      QualifyingStep(entries, i);
      if !file.isDir {
        var ext := Paths.Ext(file.name);
        if ext == ".wav" || ext == ".mp3" {
          audioFiles := audioFiles + [AudioFile(file.name, file.size, file.modTime, DownloadPrefix + file.name)];
          count := count + 1;
        } else {
          assert !IsAudioEntry(file);
        }
      }
      i := i + 1;
    }

    TakenIsListed(entries, i, limit);
  }

  // --------------------------------------------------------------- download

  const ContentTypeWav: string := "audio/wav"
  const ContentTypeMp3: string := "audio/mpeg"
  const ContentTypeOther: string := "application/octet-stream"

  /** The Content-Type chosen from the file name's extension. */
  function ContentType(filename: string): (r: string)
    ensures r == ContentTypeWav <==> Paths.Ext(filename) == ".wav"
    ensures r == ContentTypeMp3 <==> Paths.Ext(filename) == ".mp3"
    ensures r == ContentTypeOther <==> !IsAudioName(filename)
  {
    match Paths.Ext(filename)
    case ".wav" => ContentTypeWav
    case ".mp3" => ContentTypeMp3
    case _ => ContentTypeOther
  }

  datatype DownloadResponse =
    | Served(headers: map<string, string>, body: Bytes)
    | DownloadError(status: int, error: string)
  {
    function Status(): int {
      if Served? then 200 else status
    }
  }

  const EmptyFilename: string := "文件名不能为空"
  const FileMissing: string := "文件不存在"

  /** GET /api/download/:filename: the file with attachment headers, or 400 / 404. */
  function Download(filename: string, files: map<string, Bytes>): (r: DownloadResponse)
    ensures r.Status() == 400 <==> filename == ""
    ensures r.Status() == 404 <==> filename != "" && filename !in files
    ensures r.Status() == 200 <==> filename != "" && filename in files
    ensures r.Status() == 400 ==> r == DownloadError(400, EmptyFilename)
    ensures r.Status() == 404 ==> r == DownloadError(404, FileMissing)
    ensures r.Served? ==> r.body == files[filename]
    ensures r.Served? ==> "Content-Disposition" in r.headers && r.headers["Content-Disposition"] == "attachment; filename=" + filename
    ensures r.Served? ==> "Content-Type" in r.headers && r.headers["Content-Type"] == ContentType(filename)
  {
    if filename == "" then DownloadError(400, EmptyFilename)
    else if filename !in files then DownloadError(404, FileMissing)
    else
      Served(map[
        "Content-Description" := "File Transfer",
        "Content-Transfer-Encoding" := "binary",
        "Content-Disposition" := "attachment; filename=" + filename,
        "Content-Type" := ContentType(filename)
      ], files[filename])
  }

  /** A name ending in "." + format (format free of '.' and '/') is served with the format's type. */
  lemma ContentTypeOfFormat(base: string, format: string)
    requires Paths.NoDotOrSeparator(format)
    ensures ContentType(base + "." + format) ==
      if format == "wav" then ContentTypeWav else if format == "mp3" then ContentTypeMp3 else ContentTypeOther
  {
    Paths.ExtOfSuffix(base, format);
    var ext := "." + format;
    assert ext[1..] == format;
    if format == "wav" {
      assert ext == ".wav";
    } else if format == "mp3" {
      assert ext == ".mp3";
    } else {
      assert ext != ".wav" && ext != ".mp3";
    }
  }

  /**
   * ReadDir's view of the store: every non-directory entry is a stored file of
   * the reported size, and every stored file is such an entry.
   */
  ghost predicate Enumerates(entries: seq<DirEntry>, files: map<string, Bytes>) {
    && (forall j :: 0 <= j < |entries| && !entries[j].isDir ==>
          entries[j].name in files && entries[j].size == |files[entries[j].name]|)
    && (forall name :: name in files ==>
          exists j :: 0 <= j < |entries| && !entries[j].isDir && entries[j].name == name)
  }

  /** Every file the listing reports can be downloaded, with its listed size and an audio type. */
  lemma ListedAreDownloadable(entries: seq<DirEntry>, files: map<string, Bytes>, limit: int, k: nat)
    requires Enumerates(entries, files)
    requires k < |Listed(entries, limit)|
    ensures var f := Listed(entries, limit)[k];
      var r := Download(f.filename, files);
      r.Served? && |r.body| == f.size && r.headers["Content-Type"] in {ContentTypeWav, ContentTypeMp3}
  {
    ListedAreAudio(entries, limit, k);
  }
}
