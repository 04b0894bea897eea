/** The `meta` part of the analyser's output and the two key dispatches that
    fill it: `LogInit:` keys (src/lib/server/log-analyzer.ts:199-261) and CSV
    profiler keys (:277-296). Every field starts unset; a write overwrites. */
module Metadata {
  import opened JsRuntime
  import opened Strings

  datatype Meta = Meta(
    baseDirectory: Option<string>,
    executableName: Option<string>,
    commandLine: Option<string>,
    platform: Option<string>,
    branch: Option<string>,
    buildConfig: Option<string>,
    buildVersion: Option<string>,
    engineVersion: Option<string>,
    netCL: Option<JsNumber>,
    compiledAt: Option<string>,
    compiledWith: Option<string>,
    compiledWithVersion: Option<string>)

  const EmptyMeta := Meta(None, None, None, None, None, None, None, None, None, None, None, None)

  /** The names of the twelve fields. */
  datatype Field =
    | BaseDirectory | ExecutableName | CommandLine | Platform | Branch | BuildConfig
    | BuildVersion | EngineVersion | NetCL | CompiledAt | CompiledWith | CompiledWithVersion

  /** `a` and `b` agree on field `f`. */
  predicate SameField(a: Meta, b: Meta, f: Field) {
    match f
    case BaseDirectory => a.baseDirectory == b.baseDirectory
    case ExecutableName => a.executableName == b.executableName
    case CommandLine => a.commandLine == b.commandLine
    case Platform => a.platform == b.platform
    case Branch => a.branch == b.branch
    case BuildConfig => a.buildConfig == b.buildConfig
    case BuildVersion => a.buildVersion == b.buildVersion
    case EngineVersion => a.engineVersion == b.engineVersion
    case NetCL => a.netCL == b.netCL
    case CompiledAt => a.compiledAt == b.compiledAt
    case CompiledWith => a.compiledWith == b.compiledWith
    case CompiledWithVersion => a.compiledWithVersion == b.compiledWithVersion
  }

  lemma SameOnEveryField(a: Meta, b: Meta)
    requires forall f :: SameField(a, b, f)
    ensures a == b
  {
    assert SameField(a, b, BaseDirectory) && SameField(a, b, ExecutableName) && SameField(a, b, CommandLine);
    assert SameField(a, b, Platform) && SameField(a, b, Branch) && SameField(a, b, BuildConfig);
    assert SameField(a, b, BuildVersion) && SameField(a, b, EngineVersion) && SameField(a, b, NetCL);
    assert SameField(a, b, CompiledAt) && SameField(a, b, CompiledWith) && SameField(a, b, CompiledWithVersion);
  }

  /** The labelled cases of the `LogInit:` switch; labels that fall through to
      the same statements (a key and its alias) share one. */
  datatype InitCase =
    | ExecutableNameCase | PlatformCase | BranchNameCase | BuildCase | BuildConfigurationCase
    | EngineVersionCase | NetClCase | CompiledAtCase | CompiledWithCase(compiler: string)
    | CommandLineCase | BaseDirectoryCase

  /** The case a `LogInit:` key selects; None for the `default` label. */
  function InitCaseOf(key: string): Option<InitCase> {
    if key == "ExecutableName" then Some(ExecutableNameCase)
    else if key == "Platform" then Some(PlatformCase)
    else if key == "Branch Name" then Some(BranchNameCase)
    else if key == "Build" || key == "Version" then Some(BuildCase)
    else if key == "Build Configuration" then Some(BuildConfigurationCase)
    else if key == "Engine Version" then Some(EngineVersionCase)
    else if key == "Net CL" || key == "API Version" then Some(NetClCase)
    else if key == "Compiled (64-bit)" || key == "Compiled (32-bit)" then Some(CompiledAtCase)
    else if key == "Compiled with Clang" then Some(CompiledWithCase("Clang"))
    else if key == "Compiled with ICL" then Some(CompiledWithCase("ICL"))
    else if key == "Compiled with Visual C++" then Some(CompiledWithCase("Visual C++"))
    else if key == "Command Line" || key == "Filtered Command Line" then Some(CommandLineCase)
    else if key == "Base Directory" then Some(BaseDirectoryCase)
    else None
  }

  /** The fields each case assigns. */
  function InitCaseFields(c: InitCase): set<Field> {
    match c
    case ExecutableNameCase => {ExecutableName}
    case PlatformCase => {Platform}
    case BranchNameCase => {Branch}
    case BuildCase => {BuildVersion}
    case BuildConfigurationCase => {BuildConfig}
    case EngineVersionCase => {EngineVersion}
    case NetClCase => {NetCL}
    case CompiledAtCase => {CompiledAt}
    case CompiledWithCase(_) => {CompiledWith, CompiledWithVersion}
    case CommandLineCase => {CommandLine}
    case BaseDirectoryCase => {BaseDirectory}
  }

  /** The fields a `LogInit:` key writes, aliases included; empty for a key the
      switch does not recognise. */
  function InitKeyFields(key: string): set<Field> {
    match InitCaseOf(key)
    case None => {}
    case Some(c) => InitCaseFields(c)
  }

  /** The field a CSV profiler key writes; empty for an unrecognised key. */
  function CsvKeyFields(key: string): set<Field> {
    if key == "platform" then {Platform}
    else if key == "config" then {BuildConfig}
    else if key == "buildversion" then {BuildVersion}
    else if key == "engineversion" then {EngineVersion}
    else {}
  }

  /** The statements of one case of the `LogInit:` switch. */
  function ApplyInitCase(m: Meta, c: InitCase, value: string, rt: Runtime): Meta {
    match c
    case ExecutableNameCase => m.(executableName := Some(value))
    case PlatformCase => m.(platform := Some(value))
    case BranchNameCase => m.(branch := Some(value))
    case BuildCase => m.(buildVersion := Some(value))
    case BuildConfigurationCase => m.(buildConfig := Some(value))
    case EngineVersionCase => m.(engineVersion := Some(value))
    case NetClCase => m.(netCL := Some(ParseInt(value)))
    case CompiledAtCase => m.(compiledAt := Some(rt.dateToIso(value)))
    case CompiledWithCase(compiler) => m.(compiledWith := Some(compiler), compiledWithVersion := Some(value))
    case CommandLineCase => m.(commandLine := Some(Trim(value)))
    case BaseDirectoryCase => m.(baseDirectory := Some(value))
  }

  /** The `switch (groups.key)` of a `LogInit:` line. */
  function ApplyInitMetadata(m: Meta, key: string, value: string, rt: Runtime): Meta {
    match InitCaseOf(key)
    case None => m
    case Some(c) => ApplyInitCase(m, c, value, rt)
  }

  /** The `switch (groups.key)` of a CSV profiler line. */
  function ApplyCsvMetadata(m: Meta, key: string, value: string): Meta {
    if key == "platform" then m.(platform := Some(value))
    else if key == "config" then m.(buildConfig := Some(value))
    else if key == "buildversion" then m.(buildVersion := Some(value))
    else if key == "engineversion" then m.(engineVersion := Some(value))
    else m
  }

  /** The labels of the `LogInit:` switch and the case each one selects: a
      case is reached from its own labels and from no other key. */
  lemma InitKeyCases(key: string)
    ensures InitCaseOf(key) == Some(ExecutableNameCase) <==> key == "ExecutableName"
    ensures InitCaseOf(key) == Some(PlatformCase) <==> key == "Platform"
    ensures InitCaseOf(key) == Some(BranchNameCase) <==> key == "Branch Name"
    ensures InitCaseOf(key) == Some(BuildCase) <==> (key == "Build" || key == "Version")
    ensures InitCaseOf(key) == Some(BuildConfigurationCase) <==> key == "Build Configuration"
    ensures InitCaseOf(key) == Some(EngineVersionCase) <==> key == "Engine Version"
    ensures InitCaseOf(key) == Some(NetClCase) <==> (key == "Net CL" || key == "API Version")
    ensures InitCaseOf(key) == Some(CompiledAtCase) <==> (key == "Compiled (64-bit)" || key == "Compiled (32-bit)")
    ensures InitCaseOf(key) == Some(CompiledWithCase("Clang")) <==> key == "Compiled with Clang"
    ensures InitCaseOf(key) == Some(CompiledWithCase("ICL")) <==> key == "Compiled with ICL"
    ensures InitCaseOf(key) == Some(CompiledWithCase("Visual C++")) <==> key == "Compiled with Visual C++"
    ensures InitCaseOf(key) == Some(CommandLineCase) <==> (key == "Command Line" || key == "Filtered Command Line")
    ensures InitCaseOf(key) == Some(BaseDirectoryCase) <==> key == "Base Directory"
  {
  }

  /** A `LogInit:` line changes only the fields the table gives its key, and an
      unrecognised key changes nothing. */
  lemma InitMetadataFrame(m: Meta, key: string, value: string, rt: Runtime)
    ensures var r := ApplyInitMetadata(m, key, value, rt);
      && (InitKeyFields(key) == {} ==> r == m)
      && (forall f :: f !in InitKeyFields(key) ==> SameField(r, m, f))
  {
    match InitCaseOf(key)
    case None =>
    case Some(c) =>
      InitCaseFrame(m, c, value, rt);
      assert InitKeyFields(key) == InitCaseFields(c);
  }

  /** Field `f` of `m` holds a value. */
  predicate IsSet(m: Meta, f: Field) {
    match f
    case BaseDirectory => m.baseDirectory.Some?
    case ExecutableName => m.executableName.Some?
    case CommandLine => m.commandLine.Some?
    case Platform => m.platform.Some?
    case Branch => m.branch.Some?
    case BuildConfig => m.buildConfig.Some?
    case BuildVersion => m.buildVersion.Some?
    case EngineVersion => m.engineVersion.Some?
    case NetCL => m.netCL.Some?
    case CompiledAt => m.compiledAt.Some?
    case CompiledWith => m.compiledWith.Some?
    case CompiledWithVersion => m.compiledWithVersion.Some?
  }

  /** One case assigns at least one field, and only its own fields. */
  lemma InitCaseFrame(m: Meta, c: InitCase, value: string, rt: Runtime)
    ensures InitCaseFields(c) != {}
    ensures forall f :: f !in InitCaseFields(c) ==> SameField(ApplyInitCase(m, c, value, rt), m, f)
  {
  }

  /** Every field of a case holds a value after the case has run. */
  lemma InitCaseWrites(m: Meta, c: InitCase, value: string, rt: Runtime)
    ensures forall f :: f in InitCaseFields(c) ==> IsSet(ApplyInitCase(m, c, value, rt), f)
  {
  }

  /** What a `LogInit:` line with key `key` and value `value` leaves in `after`,
      starting from `before`: the value, converted where the switch converts it,
      in the fields of the key's case, and every other field as it was. */
  predicate InitKeyStores(before: Meta, after: Meta, key: string, value: string, rt: Runtime) {
    && (key == "ExecutableName" ==> after.executableName == Some(value))
    && (key == "Platform" ==> after.platform == Some(value))
    && (key == "Branch Name" ==> after.branch == Some(value))
    && (key == "Build" || key == "Version" ==> after.buildVersion == Some(value))
    && (key == "Build Configuration" ==> after.buildConfig == Some(value))
    && (key == "Engine Version" ==> after.engineVersion == Some(value))
    && (key == "Net CL" || key == "API Version" ==> after.netCL == Some(ParseInt(value)))
    && (key == "Compiled (64-bit)" || key == "Compiled (32-bit)" ==> after.compiledAt == Some(rt.dateToIso(value)))
    && (key == "Compiled with Clang" ==> after.compiledWith == Some("Clang") && after.compiledWithVersion == Some(value))
    && (key == "Compiled with ICL" ==> after.compiledWith == Some("ICL") && after.compiledWithVersion == Some(value))
    && (key == "Compiled with Visual C++" ==>
          after.compiledWith == Some("Visual C++") && after.compiledWithVersion == Some(value))
    && (key == "Command Line" || key == "Filtered Command Line" ==> after.commandLine == Some(Trim(value)))
    && (key == "Base Directory" ==> after.baseDirectory == Some(value))
    && (forall f :: f !in InitKeyFields(key) ==> SameField(after, before, f))
  }

  /** The value each `LogInit:` key stores, and the fields it leaves alone. */
  lemma InitMetadataValues(m: Meta, key: string, value: string, rt: Runtime)
    ensures InitKeyStores(m, ApplyInitMetadata(m, key, value, rt), key, value, rt)
  {
    InitKeyCases(key);
    InitMetadataFrame(m, key, value, rt);
    match InitCaseOf(key)
    case None =>
    case Some(c) =>
      var r := ApplyInitCase(m, c, value, rt);
      assert ApplyInitMetadata(m, key, value, rt) == r;
      match c
      case ExecutableNameCase =>
      case PlatformCase =>
      case BranchNameCase =>
      case BuildCase =>
      case BuildConfigurationCase =>
      case EngineVersionCase =>
      case NetClCase =>
      case CompiledAtCase =>
      case CompiledWithCase(compiler) =>
      case CommandLineCase =>
      case BaseDirectoryCase =>
  }

  /** What one case stores does not depend on what was there before. */
  lemma InitCaseOverwrites(m1: Meta, m2: Meta, c: InitCase, value: string, rt: Runtime)
    ensures forall f :: f in InitCaseFields(c) ==> SameField(ApplyInitCase(m1, c, value, rt), ApplyInitCase(m2, c, value, rt), f)
  {
  }

  /** What each recognised CSV profiler key stores; nothing else changes, and an
      unrecognised key changes nothing. */
  lemma CsvMetadataDispatch(m: Meta, key: string, value: string)
    ensures var r := ApplyCsvMetadata(m, key, value);
      && (CsvKeyFields(key) == {} ==> r == m)
      && (forall f :: f !in CsvKeyFields(key) ==> SameField(r, m, f))
      && (key == "platform" ==> r.platform == Some(value))
      && (key == "config" ==> r.buildConfig == Some(value))
      && (key == "buildversion" ==> r.buildVersion == Some(value))
      && (key == "engineversion" ==> r.engineVersion == Some(value))
  {
  }

  /** One metadata write, from either kind of line. */
  datatype MetaWrite = InitKey(key: string, value: string) | CsvKey(key: string, value: string)

  function ApplyWrite(m: Meta, w: MetaWrite, rt: Runtime): Meta {
    match w
    case InitKey(k, v) => ApplyInitMetadata(m, k, v, rt)
    case CsvKey(k, v) => ApplyCsvMetadata(m, k, v)
  }

  function Targets(w: MetaWrite): set<Field> {
    match w
    case InitKey(k, _) => InitKeyFields(k)
    case CsvKey(k, _) => CsvKeyFields(k)
  }

  /** A write touches only its target fields ... */
  lemma WriteFrame(m: Meta, w: MetaWrite, rt: Runtime)
    ensures forall f :: f !in Targets(w) ==> SameField(ApplyWrite(m, w, rt), m, f)
  {
    match w
    case InitKey(k, v) => InitMetadataFrame(m, k, v, rt);
    case CsvKey(k, v) => CsvMetadataDispatch(m, k, v);
  }

  /** ... and what it stores there does not depend on what was there before. */
  lemma WriteOverwrites(m1: Meta, m2: Meta, w: MetaWrite, rt: Runtime)
    ensures forall f :: f in Targets(w) ==> SameField(ApplyWrite(m1, w, rt), ApplyWrite(m2, w, rt), f)
  {
    match w
    case InitKey(k, v) =>
      if InitCaseOf(k).Some? {
        InitCaseOverwrites(m1, m2, InitCaseOf(k).value, v, rt);
      }
    case CsvKey(k, v) =>
  }

  /** Last write wins: a write whose fields are all rewritten by a later one
      leaves no trace. This covers a recurring key, an alias after its key
      (`Version` after `Build`, `API Version` after `Net CL`), and a CSV key after
      the `LogInit:` key of the same field. */
  lemma LastWriteWins(m: Meta, first: MetaWrite, second: MetaWrite, rt: Runtime)
    requires Targets(first) <= Targets(second)
    ensures ApplyWrite(ApplyWrite(m, first, rt), second, rt) == ApplyWrite(m, second, rt)
  {
    var a := ApplyWrite(ApplyWrite(m, first, rt), second, rt);
    var b := ApplyWrite(m, second, rt);
    WriteFrame(m, first, rt);
    WriteFrame(ApplyWrite(m, first, rt), second, rt);
    WriteFrame(m, second, rt);
    WriteOverwrites(ApplyWrite(m, first, rt), m, second, rt);
    forall f ensures SameField(a, b, f) {
      if f !in Targets(second) {
        assert SameField(a, ApplyWrite(m, first, rt), f);
        assert SameField(ApplyWrite(m, first, rt), m, f);
        assert SameField(b, m, f);
      }
    }
    SameOnEveryField(a, b);
  }
}
