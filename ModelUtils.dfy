/** src/utils/modelUtils.ts: where the Gemma model file lives, whether it
    is there, the download decision and the user-facing network error text.
    The file system and the network are parameters; the access token sent
    with the download is a parameter too and never appears in the model. */
module ModelUtils {
  import opened Wrappers
  import opened JsStrings

  const ModelName := "gemma3n.litertlm"
  const ModelsDir := ".laiModels"
  const Ios := "ios"
  const Android := "android"

  // ----- Path layout -----

  /** `BASE_PATH`: app-specific external storage on Android, the documents
      directory elsewhere. */
  function BasePath(os: string, externalDirectoryPath: string, documentDirectoryPath: string): (b: string)
    ensures os == Android ==> b == externalDirectoryPath
    ensures os != Android ==> b == documentDirectoryPath
  {
    if os == Android then externalDirectoryPath else documentDirectoryPath
  }

  /** `MODELS_PATH`. */
  function ModelsPath(basePath: string): string {
    basePath + "/" + ModelsDir
  }

  /** `MODEL_PATH`. */
  function ModelPath(basePath: string): string {
    ModelsPath(basePath) + "/" + ModelName
  }

  /** The text after the last `/` (all of `p` when it has none). */
  function BaseName(p: string): (n: string)
    ensures '/' !in n
    ensures |n| <= |p| && n == p[|p| - |n|..]
  {
    if p == [] || p[|p| - 1] == '/' then []
    else BaseName(p[..|p| - 1]) + [p[|p| - 1]]
  }

  /** The text before the last `/` (empty when there is none). */
  function DirName(p: string): string {
    if p == [] then []
    else if p[|p| - 1] == '/' then p[..|p| - 1]
    else DirName(p[..|p| - 1])
  }

  lemma SplitAtSlash(q: string)
    ensures BaseName(q + "/") == [] && DirName(q + "/") == q
  {
    assert (q + "/")[..|q|] == q;
  }

  lemma SplitSnoc(q: string, c: char)
    requires c != '/'
    ensures BaseName(q + [c]) == BaseName(q) + [c] && DirName(q + [c]) == DirName(q)
  {
    assert (q + [c])[..|q|] == q;
  }

  /** Joining a directory and a name without `/` splits back into the two. */
  lemma {:induction false} JoinSplits(dir: string, name: string)
    requires '/' !in name
    ensures BaseName(dir + "/" + name) == name
    ensures DirName(dir + "/" + name) == dir
    decreases |name|
  {
    if name == [] {
      assert dir + "/" + name == dir + "/";
      SplitAtSlash(dir);
    } else {
      var init, last := name[..|name| - 1], name[|name| - 1];
      assert last != '/' by { assert last in name; }
      assert '/' !in init by { forall c | c in init ensures c in name { } }
      JoinSplits(dir, init);
      assert dir + "/" + name == (dir + "/" + init) + [last];
      SplitSnoc(dir + "/" + init, last);
      assert init + [last] == name;
    }
  }

  /** The model file sits directly in the models directory, which sits
      directly in the base directory. */
  lemma PathLayout(basePath: string)
    ensures BaseName(ModelPath(basePath)) == ModelName
    ensures DirName(ModelPath(basePath)) == ModelsPath(basePath)
    ensures BaseName(ModelsPath(basePath)) == ModelsDir
    ensures DirName(ModelsPath(basePath)) == basePath
  {
    assert '/' !in ModelName by {
      forall i | 0 <= i < |ModelName| ensures ModelName[i] != '/' { }
    }
    assert '/' !in ModelsDir by {
      forall i | 0 <= i < |ModelsDir| ensures ModelsDir[i] != '/' { }
    }
    JoinSplits(ModelsPath(basePath), ModelName);
    JoinSplits(basePath, ModelsDir);
  }

  // ----- Permission and presence -----

  /** `requestStoragePermission`: app-specific storage needs no grant, so
      it always resolves `true`. */
  method RequestStoragePermission() returns (granted: bool)
    ensures granted
  {
    granted := true;
  }

  /** `checkModelExists`: `existsCheck` is how `RNFS.exists(MODEL_PATH)`
      settles. iOS answers `true` without looking; a failed check is
      `false`. */
  function CheckModelExists(os: string, existsCheck: Result<bool>): (present: bool)
    ensures present <==> os == Ios || existsCheck == Success(true)
  {
    if os == Ios then true
    else match existsCheck
      case Success(e) => e
      case Failure(_) => false
  }

  // ----- Download -----

  /** The `Authorization` header value for an access token. */
  function AuthorizationHeader(token: string): (h: string)
    ensures StartsWith(h, "Bearer hf_") && h[|"Bearer hf_"|..] == token
  {
    var h := "Bearer hf_" + token;
    assert h[..|"Bearer hf_"|] == "Bearer hf_";
    h
  }

  /** One `RNFS.downloadFile` request. */
  datatype DownloadRequest = DownloadRequest(toFile: string, authorization: string)

  /** The decimal digits of `n`, as `${n}` writes them. */
  function NatToDecimal(n: nat): (s: string)
    ensures s != []
    ensures forall i | 0 <= i < |s| :: '0' <= s[i] <= '9'
  {
    if n < 10 then [Digit(n)] else NatToDecimal(n / 10) + [Digit(n % 10)]
  }

  function Digit(d: nat): (c: char)
    requires d < 10
    ensures '0' <= c <= '9'
  {
    ('0' as int + d) as char
  }

  /** The value of a string of decimal digits. */
  function DecimalValue(s: string): nat
    requires forall i | 0 <= i < |s| :: '0' <= s[i] <= '9'
  {
    if s == [] then 0
    else 10 * DecimalValue(s[..|s| - 1]) + (s[|s| - 1] as int - '0' as int)
  }

  /** The status in the error message reads back as the status code. */
  lemma {:induction false} DecimalRoundTrip(n: nat)
    ensures DecimalValue(NatToDecimal(n)) == n
  {
    var s := NatToDecimal(n);
    if n >= 10 {
      DecimalRoundTrip(n / 10);
      assert s[..|s| - 1] == NatToDecimal(n / 10);
    }
  }

  function StatusFailed(status: nat): string {
    "Download failed with status: " + NatToDecimal(status)
  }

  /** How `downloadModel` settles once the transfer has settled: `transfer`
      is the status code of the finished request, or the transfer's own
      error, which is rethrown as it is. */
  function DownloadOutcome(transfer: Result<nat>): Result<bool> {
    match transfer
    case Failure(message) => Failure(message)
    case Success(status) =>
      if status == 200 then Success(true) else Failure(StatusFailed(status))
  }

  /** `downloadModel` resolves (and then to `true`) exactly for status
      200; any other status is reported, and can be read back from the
      message. */
  lemma DownloadOutcomeCases(transfer: Result<nat>)
    ensures DownloadOutcome(transfer).Success? <==> transfer == Success(200)
    ensures DownloadOutcome(transfer).Success? ==> DownloadOutcome(transfer).value
    ensures transfer.Success? && transfer.value != 200 ==>
      var m := DownloadOutcome(transfer).message;
      var prefix := "Download failed with status: ";
      && StartsWith(m, prefix)
      && (forall i | |prefix| <= i < |m| :: '0' <= m[i] <= '9')
      && DecimalValue(m[|prefix|..]) == transfer.value
  {
    if transfer.Success? && transfer.value != 200 {
      var prefix := "Download failed with status: ";
      var digits := NatToDecimal(transfer.value);
      var m := prefix + digits;
      assert m[..|prefix|] == prefix;
      assert m[|prefix|..] == digits;
      DecimalRoundTrip(transfer.value);
    }
  }

  /** The device storage `downloadModel` works on. */
  class Storage {
    var dirs: set<string>
    /** `RNFS.mkdir` calls, in order. */
    var mkdirs: seq<string>
    /** `RNFS.downloadFile` requests, in order. */
    var downloads: seq<DownloadRequest>

    constructor(dirs: set<string>)
      ensures this.dirs == dirs && mkdirs == [] && downloads == []
    {
      this.dirs := dirs;
      mkdirs := [];
      downloads := [];
    }

    /** `downloadModel`: make sure the models directory exists, request the
        file with the token's header and decide by the status code. */
    method DownloadModel(basePath: string, token: string, transfer: Result<nat>) returns (r: Result<bool>)
      modifies this
      ensures dirs == old(dirs) + {ModelsPath(basePath)}
      ensures mkdirs == old(mkdirs) + (if ModelsPath(basePath) in old(dirs) then [] else [ModelsPath(basePath)])
      ensures downloads == old(downloads) + [DownloadRequest(ModelPath(basePath), AuthorizationHeader(token))]
      ensures r == DownloadOutcome(transfer)
    {
      var granted := RequestStoragePermission();
      // `granted` always holds, so the permission-denied error is never raised.
      var modelsPath := ModelsPath(basePath);
      if modelsPath !in dirs {
        mkdirs := mkdirs + [modelsPath];
        dirs := dirs + {modelsPath};
      }
      downloads := downloads + [DownloadRequest(ModelPath(basePath), AuthorizationHeader(token))];
      match transfer
      case Failure(message) =>
        r := Failure(message);
      case Success(status) =>
        if status == 200 {
          r := Success(true);
        } else {
          r := Failure(StatusFailed(status));
        }
    }
  }

  // ----- Network errors -----

  /** A thrown value: an `Error` with its message, or anything else. */
  datatype Thrown = ErrorObject(message: string) | OtherValue

  const DefaultError := "An error occurred"
  /** The no-connection text, held in parts so that proofs can inspect
      each part separately. */
  const NoInternet := NoInternet1 + NoInternet2 + NoInternet3 + NoInternet4
  const NoInternet1 := "No internet connection. "
  const NoInternet2 := "Please check "
  const NoInternet3 := "your network "
  const NoInternet4 := "and try again."

  /** The message mentions one of the three network failure phrases
      (case-sensitive). */
  predicate IsNetworkMessage(m: string) {
    Includes(m, "Network request failed") || Includes(m, "Unable to resolve host") || Includes(m, "timeout")
  }

  /** `handleNetworkError`. */
  function HandleNetworkError(error: Thrown): (text: string)
    ensures error.OtherValue? ==> text == DefaultError
    ensures error.ErrorObject? && IsNetworkMessage(error.message) ==> text == NoInternet
    ensures error.ErrorObject? && !IsNetworkMessage(error.message) ==> text == error.message
  {
    match error
    case OtherValue => DefaultError
    case ErrorObject(message) => if IsNetworkMessage(message) then NoInternet else message
  }

  /** A text without `q`, `U` and `m` mentions none of the three phrases. */
  lemma NotNetworkMessage(m: string)
    requires 'q' !in m && 'U' !in m && 'm' !in m
    ensures !IsNetworkMessage(m)
  {
    if Includes(m, "Network request failed") {
      IncludesChars(m, "Network request failed", 'q');
    }
    if Includes(m, "Unable to resolve host") {
      IncludesChars(m, "Unable to resolve host", 'U');
    }
    if Includes(m, "timeout") {
      IncludesChars(m, "timeout", 'm');
    }
  }

  lemma NoInternetLetters1()
    ensures 'q' !in NoInternet1 && 'U' !in NoInternet1 && 'm' !in NoInternet1
  {
  }

  lemma NoInternetLetters2()
    ensures 'q' !in NoInternet2 && 'U' !in NoInternet2 && 'm' !in NoInternet2
  {
  }

  lemma NoInternetLetters3()
    ensures 'q' !in NoInternet3 && 'U' !in NoInternet3 && 'm' !in NoInternet3
  {
  }

  lemma NoInternetLetters()
    ensures 'q' !in NoInternet && 'U' !in NoInternet && 'm' !in NoInternet
  {
    NoInternetLetters1();
    NoInternetLetters2();
    NoInternetLetters3();
  }

  /** Neither fixed text looks like a network failure. */
  lemma FixedTextsNotNetwork()
    ensures !IsNetworkMessage(NoInternet) && !IsNetworkMessage(DefaultError)
  {
    NoInternetLetters();
    assert 'q' !in DefaultError && 'U' !in DefaultError && 'm' !in DefaultError;
    NotNetworkMessage(NoInternet);
    NotNetworkMessage(DefaultError);
  }

  /** Handling the handled text again changes nothing. */
  lemma HandleNetworkErrorStable(error: Thrown)
    ensures HandleNetworkError(ErrorObject(HandleNetworkError(error))) == HandleNetworkError(error)
  {
    FixedTextsNotNetwork();
  }
}
