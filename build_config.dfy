/**
 * The electron-builder configuration generator
 * (build/gen-electron-builder-config.js): the packaged file list derived
 * from the package-ignore list, the per-platform filters that keep only the
 * platform's own RPC server binary, the `NO_ASAR` switch, and the appx
 * language list with its guard against languages the store does not accept.
 *
 * The ignore-list file's text, the `NO_ASAR` environment variable and the
 * store's language table are parameters.
 */
module BuildConfig {
  import opened Wrappers
  import opened JsStrings
  import opened JsArrays

  const AppId := "chat.delta.desktop.electron"

  /** The appx publisher and identity. */
  const AppxPublisher := "CN=C13753E5-D590-467C-9FCA-6799E1A5EC1E"
  const AppxIdentity := "merlinux.DeltaChat"

  // ---------------------------------------------------------------------------
  // The exclude list
  // ---------------------------------------------------------------------------

  /** Every string of `lines`, trimmed. */
  function TrimAll(lines: seq<string>): (r: seq<string>)
    ensures |r| == |lines|
    ensures forall i :: 0 <= i < |r| ==> r[i] == Trim(lines[i])
  {
    seq(|lines|, i requires 0 <= i < |lines| => Trim(lines[i]))
  }

  /** A trimmed line that names a pattern: neither blank nor a `#` comment. */
  predicate IsPattern(line: string)
  {
    line != "" && !StartsWith(line, "#")
  }

  function IsPatternFn(): string -> bool
  {
    (line: string) => IsPattern(line)
  }

  /** Every pattern turned into a negated glob. */
  function NegateAll(patterns: seq<string>): (r: seq<string>)
    ensures |r| == |patterns|
    ensures forall i :: 0 <= i < |r| ==> r[i] == "!" + patterns[i]
  {
    seq(|patterns|, i requires 0 <= i < |patterns| => "!" + patterns[i])
  }

  /** `exclude_list`, from the text of `packageignore_list`. */
  function ExcludeList(ignoreFile: string): seq<string>
  {
    NegateAll(Filter(TrimAll(Split(ignoreFile, '\n')), IsPatternFn()))
  }

  /** What one line of the ignore file contributes: its negated pattern, or nothing. */
  function LineEntries(line: string): (r: seq<string>)
    ensures |r| <= 1
  {
    if IsPattern(Trim(line)) then ["!" + Trim(line)] else []
  }

  lemma TrimAllAppend(a: seq<string>, b: seq<string>)
    ensures TrimAll(a + b) == TrimAll(a) + TrimAll(b)
  {
  }

  lemma NegateAllAppend(a: seq<string>, b: seq<string>)
    ensures NegateAll(a + b) == NegateAll(a) + NegateAll(b)
  {
  }

  /**
   * The exclude list is built line by line: the text of two parts joined by
   * a line break gives the first part's entries followed by the second's,
   * and a single line gives exactly its own entry.
   */
  lemma {:induction false} ExcludeListByLines(a: string, b: string)
    ensures ExcludeList(a + ['\n'] + b) == ExcludeList(a) + ExcludeList(b)
  {
    var la := Split(a, '\n');
    var lb := Split(b, '\n');
    SplitConcat(a, b, '\n');
    TrimAllAppend(la, lb);
    FilterAppend(TrimAll(la), TrimAll(lb), IsPatternFn());
    NegateAllAppend(Filter(TrimAll(la), IsPatternFn()), Filter(TrimAll(lb), IsPatternFn()));
  }

  lemma ExcludeListOfLine(line: string)
    requires '\n' !in line
    ensures ExcludeList(line) == LineEntries(line)
  {
    SplitJoin([line], '\n');
    var t := Trim(line);
    var trimmed := TrimAll([line]);
    assert trimmed == [t];
    assert trimmed[1..] == [];
    var kept := Filter(trimmed, IsPatternFn());
    assert kept == (if IsPattern(t) then [t] else []) + Filter(trimmed[1..], IsPatternFn());
  }

  /** The negated patterns among `lines`: shape and membership. */
  lemma NegatedPatterns(lines: seq<string>, p: string)
    ensures forall e :: e in NegateAll(Filter(lines, IsPatternFn())) ==>
      |e| >= 1 && e[0] == '!' && e[1..] in lines && IsPattern(e[1..])
    ensures "!" + p in NegateAll(Filter(lines, IsPatternFn())) <==> IsPattern(p) && p in lines
  {
    var kept := Filter(lines, IsPatternFn());
    var excl := NegateAll(kept);
    forall e | e in excl
      ensures |e| >= 1 && e[0] == '!' && e[1..] in lines && IsPattern(e[1..])
    {
      var i :| 0 <= i < |excl| && excl[i] == e;
      assert kept[i] in kept;
      assert e[1..] == kept[i];
    }
    FilterMembership(lines, IsPatternFn(), p);
    if "!" + p in excl {
      var i :| 0 <= i < |excl| && excl[i] == "!" + p;
      assert kept[i] == ("!" + p)[1..];
      assert kept[i] in kept;
    }
    if IsPattern(p) && p in lines {
      var i :| 0 <= i < |kept| && kept[i] == p;
      assert excl[i] == "!" + p;
    }
  }

  /** A string is among the trimmed lines exactly when some line trims to it. */
  lemma TrimAllMembership(lines: seq<string>, p: string)
    ensures p in TrimAll(lines) <==> exists line :: line in lines && Trim(line) == p
  {
    var trimmed := TrimAll(lines);
    if p in trimmed {
      var j :| 0 <= j < |trimmed| && trimmed[j] == p;
      assert lines[j] in lines;
    }
    if exists line :: line in lines && Trim(line) == p {
      var line :| line in lines && Trim(line) == p;
      var j :| 0 <= j < |lines| && lines[j] == line;
      assert trimmed[j] == p;
    }
  }

  /**
   * Every entry is `!` followed by a pattern with no surrounding whitespace
   * that is neither empty nor a comment.
   */
  lemma ExcludeListEntryShape(ignoreFile: string, e: string)
    requires e in ExcludeList(ignoreFile)
    ensures |e| >= 2 && e[0] == '!' && IsPattern(e[1..])
    ensures !IsWhitespace(e[1]) && !IsWhitespace(e[|e| - 1])
  {
    var lines := Split(ignoreFile, '\n');
    NegatedPatterns(TrimAll(lines), e);
    TrimmedHasNoOuterWhitespace(lines, e[1..]);
  }

  /** A non-empty trimmed line begins and ends with a non-whitespace character. */
  lemma TrimmedHasNoOuterWhitespace(lines: seq<string>, q: string)
    requires q in TrimAll(lines) && q != []
    ensures !IsWhitespace(q[0]) && !IsWhitespace(q[|q| - 1])
  {
    var trimmed := TrimAll(lines);
    var j :| 0 <= j < |trimmed| && trimmed[j] == q;
    assert q == Trim(lines[j]);
  }

  /** `!p` is an entry exactly when `p` is a pattern and some line of the file trims to it. */
  lemma ExcludeListMembership(ignoreFile: string, p: string)
    ensures "!" + p in ExcludeList(ignoreFile) <==>
      IsPattern(p) && exists line :: line in Split(ignoreFile, '\n') && Trim(line) == p
  {
    NegatedPatterns(TrimAll(Split(ignoreFile, '\n')), p);
    TrimAllMembership(Split(ignoreFile, '\n'), p);
  }

  /** `files`: everything, then the exclusions. */
  function Files(ignoreFile: string): (r: seq<string>)
    ensures |r| >= 1 && r[0] == "**/*"
    ensures r[1..] == ExcludeList(ignoreFile)
  {
    ["**/*"] + ExcludeList(ignoreFile)
  }

  /**
   * The file list excludes `p` exactly when `p` is a pattern some line of
   * the ignore file trims to, and every other entry is such an exclusion.
   */
  lemma FilesMembership(ignoreFile: string, p: string, e: string)
    ensures "!" + p in Files(ignoreFile) <==>
      IsPattern(p) && exists line :: line in Split(ignoreFile, '\n') && Trim(line) == p
    ensures e in Files(ignoreFile)[1..] ==> |e| >= 2 && e[0] == '!' && IsPattern(e[1..])
  {
    var files := Files(ignoreFile);
    assert ("!" + p)[0] == '!';
    assert "!" + p in files <==> "!" + p in ExcludeList(ignoreFile);
    ExcludeListMembership(ignoreFile, p);
    if e in files[1..] {
      ExcludeListEntryShape(ignoreFile, e);
    }
  }

  // ---------------------------------------------------------------------------
  // Platform filters
  // ---------------------------------------------------------------------------

  datatype Platform = Mac | Linux | Windows

  /** `PREBUILD_FILTERS`: the glob that leaves out one platform's RPC server binaries. */
  function PrebuildFilter(p: Platform): string
  {
    match p
    case Linux => "!node_modules/@deltachat/stdio-rpc-server-linux-*${/*}"
    case Mac => "!node_modules/@deltachat/stdio-rpc-server-darwin-*${/*}"
    case Windows => "!node_modules/@deltachat/stdio-rpc-server-win32-*${/*}"
  }

  /** The two platforms other than `p`, in the order the source lists their filters. */
  function OtherPlatforms(p: Platform): (others: seq<Platform>)
    ensures |others| == 2 && others[0] != others[1] && others[0] != p && others[1] != p
  {
    match p
    case Mac => [Linux, Windows]
    case Linux => [Mac, Windows]
    case Windows => [Mac, Linux]
  }

  /** The `files` of the `mac`, `linux` and `win` sections. */
  function PlatformFiles(p: Platform, files: seq<string>): seq<string>
  {
    var others := OtherPlatforms(p);
    files + [PrebuildFilter(others[0]), PrebuildFilter(others[1])]
  }

  /**
   * A platform's file list is the common list followed by exactly two
   * filters: those of the two other platforms, never its own, so each
   * package keeps only its own RPC server binary.
   */
  lemma PlatformFilesFilters(p: Platform, files: seq<string>)
    ensures var r := PlatformFiles(p, files);
      && |r| == |files| + 2 && r[..|files|] == files
      && (forall q :: PrebuildFilter(q) in r[|files|..] <==> q != p)
  {
    var r := PlatformFiles(p, files);
    assert r[|files|..] == [PrebuildFilter(OtherPlatforms(p)[0]), PrebuildFilter(OtherPlatforms(p)[1])];
    assert PrebuildFilter(Mac) != PrebuildFilter(Linux) by {
      assert PrebuildFilter(Mac)[42] != PrebuildFilter(Linux)[42];
    }
    assert PrebuildFilter(Mac) != PrebuildFilter(Windows) by {
      assert PrebuildFilter(Mac)[42] != PrebuildFilter(Windows)[42];
    }
    assert PrebuildFilter(Linux) != PrebuildFilter(Windows) by {
      assert PrebuildFilter(Linux)[42] != PrebuildFilter(Windows)[42];
    }
  }

  // ---------------------------------------------------------------------------
  // asar
  // ---------------------------------------------------------------------------

  /**
   * The `asar` key: set to false when `NO_ASAR` is set to anything other
   * than `false`, absent otherwise.
   */
  function AsarOption(noAsar: Option<string>): (asar: Option<bool>)
    ensures asar.Some? ==> asar.value == false
    ensures asar.None? <==> noAsar.None? || noAsar.value == "false"
  {
    if noAsar.Some? && noAsar.value != "false" then Some(false) else None
  }

  // ---------------------------------------------------------------------------
  // appx languages
  // ---------------------------------------------------------------------------

  /** The language codes as listed, before lower-casing. */
  const LanguageCodes: seq<string> := [
    "ar", "bg", "ca", "cs", "da", "de", "en", "el", "es", "eu", "fa", "fi", "fr",
    "gl", "hr", "hu", "id", "it", "ja-jp", "km", "ko", "lt", "nb", "nl-nl", "pl",
    "pt", "pt-BR", "ro", "ru", "sk", "sq", "sv", "ta", "te", "tr", "uk", "vi",
    "zh-cn", "zh-tw"
  ]

  /** Every code lower-cased. */
  function LowerAll(codes: seq<string>): (r: seq<string>)
    ensures |r| == |codes|
    ensures forall i :: 0 <= i < |r| ==> r[i] == ToLower(codes[i])
  {
    seq(|codes|, i requires 0 <= i < |codes| => ToLower(codes[i]))
  }

  /** `languages`. */
  function Languages(): seq<string>
  {
    LowerAll(LanguageCodes)
  }

  /** The languages are the 39 listed codes, each lower-cased, in list order. */
  lemma LanguagesLowerCase()
    ensures |Languages()| == 39
    ensures forall i :: 0 <= i < |Languages()| ==> IsLowerCase(Languages()[i])
    ensures Languages()[26] == "pt-br"
  {
    forall i | 0 <= i < |Languages()| ensures IsLowerCase(Languages()[i]) {
      ToLowerNormalises(LanguageCodes[i]);
    }
    assert LanguageCodes[26] == "pt-BR";
  }

  function Unsupported(supported: string -> bool): string -> bool
  {
    (code: string) => !supported(code)
  }

  /** `unsupported_languages`, for the store's table `supported`. */
  function UnsupportedLanguages(codes: seq<string>, supported: string -> bool): seq<string>
  {
    Filter(codes, Unsupported(supported))
  }

  // ---------------------------------------------------------------------------
  // The generated configuration
  // ---------------------------------------------------------------------------

  datatype Appx = Appx(applicationId: string, publisher: string, identityName: string, languages: seq<string>)

  /** The computed parts of the configuration written to `electron-builder.json5`. */
  datatype Config = Config(
    appId: string,
    protocolSchemes: seq<seq<string>>,
    files: seq<string>,
    asar: Option<bool>,
    macFiles: seq<string>,
    linuxFiles: seq<string>,
    winFiles: seq<string>,
    appx: Appx)

  /**
   * The script for a given (lower-cased) language list: the configuration,
   * or the error naming the languages the store does not accept, in which
   * case nothing is written.
   */
  function GenerateFor(ignoreFile: string, noAsar: Option<string>, languages: seq<string>, supported: string -> bool)
    : Result<Config, seq<string>>
  {
    var files := Files(ignoreFile);
    var unsupported := UnsupportedLanguages(languages, supported);
    if |unsupported| > 0 then Failure(unsupported)
    else
      Success(Config(
        AppId,
        [["openpgp4fpr", "dcaccount", "dclogin"], ["mailto"]],
        files,
        AsarOption(noAsar),
        PlatformFiles(Mac, files),
        PlatformFiles(Linux, files),
        PlatformFiles(Windows, files),
        Appx(AppId, AppxPublisher, AppxIdentity, languages)))
  }

  /** The script as written, with its own language list. */
  function Generate(ignoreFile: string, noAsar: Option<string>, supported: string -> bool)
    : Result<Config, seq<string>>
  {
    GenerateFor(ignoreFile, noAsar, Languages(), supported)
  }

  /** The unsupported languages are exactly the listed codes the store does not accept. */
  lemma UnsupportedLanguagesExactly(languages: seq<string>, supported: string -> bool, code: string)
    ensures var unsupported := UnsupportedLanguages(languages, supported);
      && (|unsupported| > 0 <==> exists i :: 0 <= i < |languages| && !supported(languages[i]))
      && (code in unsupported <==> code in languages && !supported(code))
  {
    var unsupported := UnsupportedLanguages(languages, supported);
    FilterMembership(languages, Unsupported(supported), code);
    if exists i :: 0 <= i < |languages| && !supported(languages[i]) {
      var i :| 0 <= i < |languages| && !supported(languages[i]);
      FilterMembership(languages, Unsupported(supported), languages[i]);
      assert languages[i] in unsupported;
    }
    if |unsupported| > 0 {
      assert unsupported[0] in languages && !supported(unsupported[0]);
      var i :| 0 <= i < |languages| && languages[i] == unsupported[0];
    }
  }

  /**
   * Generation fails exactly when some language is not accepted by the
   * store, and the error names exactly those languages, in list order.
   */
  lemma GenerateFailure(ignoreFile: string, noAsar: Option<string>, languages: seq<string>,
                        supported: string -> bool, code: string)
    ensures var r := GenerateFor(ignoreFile, noAsar, languages, supported);
      && (r.Failure? <==> exists i :: 0 <= i < |languages| && !supported(languages[i]))
      && (r.Failure? ==> r.error == Filter(languages, Unsupported(supported)))
      && (r.Failure? ==> (code in r.error <==> code in languages && !supported(code)))
  {
    UnsupportedLanguagesExactly(languages, supported, code);
  }

  /**
   * On success every appx language is accepted by the store, the appx id is
   * the app id, the files are everything minus the exclusions, and each
   * platform lists those files plus the other platforms' filters.
   */
  lemma GenerateSuccess(ignoreFile: string, noAsar: Option<string>, languages: seq<string>, supported: string -> bool)
    ensures var r := GenerateFor(ignoreFile, noAsar, languages, supported);
      r.Success? ==>
        && r.value.appx.languages == languages
        && (forall l :: l in r.value.appx.languages ==> supported(l))
        && r.value.appx.applicationId == r.value.appId == AppId
        && r.value.files == ["**/*"] + ExcludeList(ignoreFile)
        && r.value.asar == AsarOption(noAsar)
        && r.value.macFiles == PlatformFiles(Mac, r.value.files)
        && r.value.linuxFiles == PlatformFiles(Linux, r.value.files)
        && r.value.winFiles == PlatformFiles(Windows, r.value.files)
  {
    if |UnsupportedLanguages(languages, supported)| == 0 {
      forall l | l in languages ensures supported(l) {
        FilterMembership(languages, Unsupported(supported), l);
      }
    }
  }
}
