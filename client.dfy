/**
 * The Panoptes-facing helpers: a bounded retry around flaky network calls, and the
 * `Subject` subclass whose `add_location` records media in two lockstep lists.
 */
module Client {
  import opened Wrappers

  type Bytes = seq<bv8>

  /**
   * The exception kinds a wrapped call can raise. Each named constructor stands for
   * its class and all of its subclasses (requests' `SSLError` and `ConnectTimeout`,
   * for example, are `ConnectionError`s); `OtherException` is any exception outside
   * the four named classes.
   */
  datatype Exception =
    | ProxyError
    | ConnectionError
    | PanoptesApiException
    | JsonDecodeError
    | OtherException(name: string)

  /** The kinds `network_retry` catches and retries. `JsonDecodeError` is imported but not among them. */
  predicate Retried(e: Exception)
  {
    e.ProxyError? || e.ConnectionError? || e.PanoptesApiException?
  }

  /** How one call of the wrapped function ends. */
  datatype CallResult<+T> = Returned(value: T) | Raised(exception: Exception)

  /** The number of attempts `network_retry` makes. */
  const RETRY_ATTEMPTS: nat := 10

  /**
   * `network_retry(f)`. The outcome of the `k`-th call (counting from 0) is `f(k)`;
   * the five-second pause between attempts has no observable effect here. Returns the
   * outcome passed on to the caller and the number of calls made.
   */
  method NetworkRetry<T>(f: nat -> CallResult<T>) returns (r: CallResult<T>, calls: nat)
    ensures 1 <= calls <= RETRY_ATTEMPTS
    // What the caller sees is the outcome of the last call made.
    ensures r == f(calls - 1)
    // Every call before the last raised a retried exception.
    ensures forall k :: 0 <= k < calls - 1 ==> f(k).Raised? && Retried(f(k).exception)
    // It stops early only on a return or on an exception that is not retried.
    ensures calls < RETRY_ATTEMPTS ==> r.Returned? || !Retried(r.exception)
  {
    var finalE: Option<Exception> := None;
    var attempt := 0;
    while attempt < RETRY_ATTEMPTS
      invariant 0 <= attempt <= RETRY_ATTEMPTS
      invariant forall k :: 0 <= k < attempt ==> f(k).Raised? && Retried(f(k).exception)
      invariant attempt == 0 <==> finalE.None?
      invariant attempt > 0 ==> finalE == Some(f(attempt - 1).exception)
    {
      var outcome := f(attempt);
      if outcome.Returned? || !Retried(outcome.exception) {
        return outcome, attempt + 1;
      }
      finalE := Some(outcome.exception);
      attempt := attempt + 1;
    }
    // The loop ran at least once, so `final_e` is set and re-raised.
    r, calls := Raised(finalE.value), RETRY_ATTEMPTS;
  }

  /** Why `add_location` can fail. */
  datatype AddLocationError =
    | FileNotFound(path: string)   // `open(location, "rb")` on a missing path
    | ReadClosedFile               // `f.read()` on a closed file object
    | UnknownMedia                 // `UnknownMediaException`: imghdr detected nothing

  /** `MEDIA_TYPE_DETECTION` together with the detector it selects. */
  datatype Detector =
    | Magic(fromBuffer: Bytes -> string)        // `magic.from_buffer(data, mime=True)`
    | Imghdr(what: Bytes -> Option<string>)     // `imghdr.what(None, data)`

  /** The `media_type` recorded for a file's bytes: the given one if non-empty, else the detected one. */
  function MediaTypeFor(data: Bytes, mediaType: Option<string>, detector: Detector): (r: Result<string, AddLocationError>)
    ensures mediaType.Some? && mediaType.value != "" ==> r == Ok(mediaType.value)
    ensures r.Err? ==> r == Err(UnknownMedia)
    ensures r.Err? <==> (mediaType.None? || mediaType.value == "") && detector.Imghdr? &&
                        (detector.what(data).None? || detector.what(data).value == "")
    ensures (mediaType.None? || mediaType.value == "") && detector.Magic? ==> r == Ok(detector.fromBuffer(data))
    ensures (mediaType.None? || mediaType.value == "") && detector.Imghdr? && r.Ok? ==>
              |r.value| > 6 && r.value[..6] == "image/" && r.value[6..] == detector.what(data).value
  {
    if mediaType.Some? && mediaType.value != "" then Ok(mediaType.value)
    else
      match detector
      case Magic(fromBuffer) => Ok(fromBuffer(data))
      case Imghdr(what) =>
        var t := what(data);
        if t.None? || t.value == "" then Err(UnknownMedia) else Ok("image/" + t.value)
  }

  /** A binary file object; `remaining` is what a `read()` from the current position returns. */
  class MediaFile {
    var remaining: Bytes
    var closed: bool

    constructor (content: Bytes)
      ensures remaining == content && !closed
    {
      remaining := content;
      closed := false;
    }

    /** `f.read()`: everything up to the end of the file. */
    method Read() returns (r: Result<Bytes, AddLocationError>)
      modifies this
      ensures closed == old(closed)
      ensures old(closed) ==> r == Err(ReadClosedFile) && remaining == old(remaining)
      ensures !old(closed) ==> r == Ok(old(remaining)) && remaining == []
    {
      if closed {
        return Err(ReadClosedFile);
      }
      r := Ok(remaining);
      remaining := [];
    }

    /** `f.close()`; closing a closed file does nothing. */
    method Close()
      modifies this
      ensures closed && remaining == old(remaining)
    {
      closed := true;
    }
  }

  /** The three forms of `location`: a dict of remote URLs by MIME type, a local path, an open file. */
  datatype LocationArg =
    | DictLocation(urls: map<string, string>)
    | PathLocation(path: string)
    | FileLocation(file: MediaFile)

  /** An entry of `Subject.locations`: a remote dict, or the MIME type of an uploaded file. */
  datatype LocationEntry = Remote(urls: map<string, string>) | MediaType(mediaType: string)

  /** The bytes `f.read()` gives for a non-dict location, or why opening or reading fails. */
  ghost function Contents(location: LocationArg, files: map<string, Bytes>): Result<Bytes, AddLocationError>
    reads if location.FileLocation? then {location.file} else {}
  {
    match location
    case DictLocation(_) => Ok([])
    case PathLocation(path) => if path in files then Ok(files[path]) else Err(FileNotFound(path))
    case FileLocation(file) => if file.closed then Err(ReadClosedFile) else Ok(file.remaining)
  }

  class Subject {
    /** `self.locations` */
    var locations: seq<LocationEntry>
    /** `self._media_files`: `None` for a remote location, the bytes for an uploaded file. */
    var mediaFiles: seq<Option<Bytes>>
    /** `self.modified_attributes` */
    var modifiedAttributes: set<string>

    /** The two lists grow in lockstep, and an entry is remote exactly when it has no bytes. */
    ghost predicate Valid()
      reads this
    {
      && |locations| == |mediaFiles|
      && forall i :: 0 <= i < |locations| ==> (locations[i].Remote? <==> mediaFiles[i].None?)
    }

    constructor ()
      ensures Valid()
      ensures locations == [] && mediaFiles == [] && modifiedAttributes == {}
    {
      locations := [];
      mediaFiles := [];
      modifiedAttributes := {};
    }

    /**
     * `add_location(location, media_type)`. Local files are read from `files`, the
     * file system; detection uses `detector`.
     */
    method AddLocation(location: LocationArg, mediaType: Option<string>, detector: Detector,
                       files: map<string, Bytes>) returns (r: Result<(), AddLocationError>)
      requires Valid()
      modifies this, if location.FileLocation? then {location.file} else {}
      ensures Valid()
      // A dict is recorded as it is, with no bytes, and no file is touched.
      ensures location.DictLocation? ==>
                && r.Ok?
                && locations == old(locations) + [Remote(location.urls)]
                && mediaFiles == old(mediaFiles) + [None]
                && modifiedAttributes == old(modifiedAttributes) + {"locations"}
      // A path or file is read once, its media type settled, and both recorded.
      ensures !location.DictLocation? ==>
                var data := old(Contents(location, files));
                var typed := if data.Ok? then MediaTypeFor(data.value, mediaType, detector) else Err(data.error);
                && (r.Ok? <==> typed.Ok?)
                && (r.Err? ==> r.error == typed.error)
                && (r.Ok? ==>
                      && locations == old(locations) + [MediaType(typed.value)]
                      && mediaFiles == old(mediaFiles) + [Some(data.value)]
                      && modifiedAttributes == old(modifiedAttributes) + {"locations"})
      // A failure records nothing.
      ensures r.Err? ==>
                locations == old(locations) && mediaFiles == old(mediaFiles) &&
                modifiedAttributes == old(modifiedAttributes)
      // A file object is closed on every path, after being read to its end.
      ensures location.FileLocation? ==>
                location.file.closed && (!old(location.file.closed) ==> location.file.remaining == [])
    {
      if location.DictLocation? {
        locations := locations + [Remote(location.urls)];
        mediaFiles := mediaFiles + [None];
        modifiedAttributes := modifiedAttributes + {"locations"};
        return Ok(());
      }
      var f: MediaFile;
      if location.PathLocation? {
        if location.path !in files {
          return Err(FileNotFound(location.path));
        }
        f := new MediaFile(files[location.path]);
      } else {
        f := location.file;
      }
      var read := f.Read();
      if read.Ok? {
        var typed := MediaTypeFor(read.value, mediaType, detector);
        if typed.Ok? {
          locations := locations + [MediaType(typed.value)];
          mediaFiles := mediaFiles + [Some(read.value)];
          modifiedAttributes := modifiedAttributes + {"locations"};
          r := Ok(());
        } else {
          r := Err(typed.error);
        }
      } else {
        r := Err(read.error);
      }
      f.Close();  // the `finally` clause
    }
  }
}
