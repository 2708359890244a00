/** The file system as the core uses it: the model files, the metadata and
    curve pickles written beside them, and the prediction record file. Only
    what the core distinguishes is kept of each file. */
module Storage {
  import opened Base
  import opened Artifact
  import opened Records
  import opened Preprocessing

  /** A record that came out of `json.loads`: it holds no numpy scalars and no other objects. */
  type JsonEntry = e: Entry | SerializableEntry(e) witness map[]

  /** What reading the prediction record file and parsing it gives. */
  datatype RecordContent =
    | Blank                            // the text is empty or only whitespace
    | JsonArray(entries: seq<JsonEntry>)  // a JSON array of objects
    | Malformed                        // json.loads raises JSONDecodeError

  /** One path on disk. A SavedModel is a directory; everything else is a file. */
  datatype Stored =
    | H5Model(weights: Weights)
    | SavedModel(weights: Weights)
    | MetadataPickle(inputShape: seq<nat>, numClasses: nat, trainingMetadata: Option<Metadata>)
    | HistoryPickle(history: EpochHistory)
    | RecordFile(content: RecordContent)
    | ImageFile(decoded: Result<Pixels>)  // an uploaded image, with what PIL makes of it
    | Unreadable  // reading it as text raises something other than a decode error

  /** The disk, shared by everything that reads or writes files. */
  class Disk {
    var files: map<string, Stored>

    constructor (initial: map<string, Stored>)
      ensures files == initial
    {
      files := initial;
    }

    /** `os.path.exists`. */
    predicate Exists(p: string)
      reads this
    {
      p in files
    }

    /** `os.path.isfile`. */
    predicate IsFile(p: string)
      reads this
    {
      p in files && !files[p].SavedModel?
    }

    method Write(p: string, s: Stored)
      modifies this
      ensures files == old(files)[p := s]
    {
      files := files[p := s];
    }

    /** `os.remove`. */
    method Remove(p: string)
      modifies this
      ensures files == old(files) - {p}
    {
      files := files - {p};
    }

    /** `os.rename(src, dst)`, which replaces `dst`; `allowed` says whether the
        operating system lets it happen (a refused rename changes nothing). */
    method Rename(src: string, dst: string, allowed: bool) returns (done: bool)
      modifies this
      ensures done <==> allowed && src in old(files)
      ensures done ==> files == (old(files) - {src})[dst := old(files)[src]]
      ensures !done ==> files == old(files)
    {
      done := allowed && src in files;
      if done {
        files := (files - {src})[dst := files[src]];
      }
    }
  }
}
