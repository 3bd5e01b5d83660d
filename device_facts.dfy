/** The fabricated device: the configuration the emulated module is told about
    and the pure lookup tables `QSecJni` answers from (build properties, system
    properties, app version, screen size, the `QsecEst` information ids, the
    version-locked `s->e` constant and the `canRead` blacklist). */
module DeviceFacts {
  import opened Common

  /** The read-only session configuration: `EnvData` and `CommonConfig`. */
  datatype EnvData = EnvData(
    androidVersion: string,
    androidSdkVersion: int,
    targetSdkVersion: int,
    storageSize: string,
    density: string,
    screenWidth: int,
    screenHeight: int,
    packageName: string,
    version: string,
    code: string,
    qua: string,
    androidId: string)

  /** Values the source draws from clocks, files and random generators at call
      time, passed in instead. */
  datatype Volatile = Volatile(
    uuid: string,             // UUID.randomUUID().toString()
    installTime: int,         // File(basePath, "config.json").lastModified()
    freeMemory: string,       // getRandomIntString(7)
    randomDigits: string,     // getRandomIntString(10)
    randomSample: int,        // Random.nextInt(0 .. 500000)
    tokenDraws: seq<int>,     // 32 draws of SecureRandom.nextInt(62)
    nowMillis: int)           // System.currentTimeMillis()

  /** The ranges of the random draws. */
  predicate ValidVolatile(v: Volatile) {
    && 0 <= v.randomSample <= 500000
    && |v.tokenDraws| == 32
    && forall i :: 0 <= i < 32 ==> 0 <= v.tokenDraws[i] < |Alphanumeric|
  }

  // ---------------------------------------------------------------------------
  // Dtc->getPropSafe

  const PropKeys: set<string> := {
    "ro.build.id", "ro.build.keys", "ro.build.display.id", "ro.product.device", "ro.product.name",
    "ro.product.board", "ro.product.manufacturer", "ro.product.brand", "ro.bootloader",
    "persist.sys.timezone", "ro.hardware", "ro.product.cpi.abi", "ro.product.cpu.abilist",
    "ro.system.product.cpu.abilist", "ro.product.cpu.abilist32", "ro.system.product.cpu.abilist32",
    "ro.product.cpu.abilist64", "ro.system.product.cpu.abilist64", "ro.build.version.incremental",
    "ro.build.version.release", "ro.build.version.sdk", "ro.build.version.base_os", "ro.boot.container",
    "ro.vendor.build.fingerprint", "ro.build.expect.bootloader", "ro.build.expect.baseband",
    "ro.build.version.security_patch", "ro.build.version.preview_sdk", "ro.build.version.codename",
    "ro.build.version.all_codenames", "ro.build.type", "ro.build.tags", "ro.treble.enabled",
    "ro.build.date.utc", "ro.build.user", "ro.build.host", "net.bt.name", "ro.build.characteristics",
    "ro.build.description", "ro.product.locale", "ro.build.flavor", "ro.config.ringtone"
  }

  /** The build `ro.build.id` reports. */
  const BuildId: string := "TKQ1.221013.002"

  /** The build that `ro.build.description` names. */
  const DescribedBuildId: string := "TKQ1.220905.001"

  /** A build property of the fabricated phone; unknown properties read as "-1". */
  function GetPropSafe(env: EnvData, key: string): (r: string)
    ensures key !in PropKeys ==> r == "-1"
    ensures key in PropKeys && key != "ro.build.version.release" && key != "ro.build.version.sdk" ==> r != "-1"
    ensures key == "ro.build.version.release" ==> r == env.androidVersion
    ensures key == "ro.build.version.sdk" ==> ParseDecimal(r) == Some(env.androidSdkVersion)
  {
    DecimalRoundTrip(env.androidSdkVersion);
    match key
    case "ro.build.id" => BuildId
    case "ro.build.keys" => "test-keys"
    case "ro.build.display.id" => "TKQ1.221013.002 test-keys"
    case "ro.product.device" | "ro.product.name" => "mondrian"
    case "ro.product.board" => "taro"
    case "ro.product.manufacturer" => "Xiaomi"
    case "ro.product.brand" => "Redmi"
    case "ro.bootloader" => "unknown"
    case "persist.sys.timezone" => "Asia/Shanghai"
    case "ro.hardware" => "qcom"
    case "ro.product.cpi.abi" => "arm64-v8a"
    case "ro.product.cpu.abilist" | "ro.system.product.cpu.abilist" => "arm64-v8a,armeabi-v7a,armeabi"
    case "ro.product.cpu.abilist32" | "ro.system.product.cpu.abilist32" => "armeabi-v7a, armeabi"
    case "ro.product.cpu.abilist64" | "ro.system.product.cpu.abilist64" => "arm64-v8a"
    case "ro.build.version.incremental" => "V14.0.8.0.TMQCNXM"
    case "ro.build.version.release" => env.androidVersion
    case "ro.build.version.sdk" => IntToDecimal(env.androidSdkVersion)
    case "ro.build.version.base_os" | "ro.boot.container" | "ro.vendor.build.fingerprint"
       | "ro.build.expect.bootloader" | "ro.build.expect.baseband" => ""
    case "ro.build.version.security_patch" => "2023-08-01"
    case "ro.build.version.preview_sdk" => "0"
    case "ro.build.version.codename" | "ro.build.version.all_codenames" => "REL"
    case "ro.build.type" => "user"
    case "ro.build.tags" => "release-keys"
    case "ro.treble.enabled" => "true"
    case "ro.build.date.utc" => "1692087179"
    case "ro.build.user" => "builder"
    case "ro.build.host" => "pangu-build-component-system-154250-9q7ms-lfm4h-qhs2q"
    case "net.bt.name" => "Android"
    case "ro.build.characteristics" => "default"
    case "ro.build.description" => "mondrian-user 12 " + DescribedBuildId + " release-keys"
    case "ro.product.locale" => "zh-CN"
    case "ro.build.flavor" => "missi_phoneext4_cn-user"
    case "ro.config.ringtone" => "Ring_Synth_04.ogg"
    case _ => "-1"
  }

  /** The display id is the build id followed by the build keys, and the
      `ro.system.*` ABI lists repeat the `ro.product.*` ones. */
  lemma BuildPropertiesAgree(env: EnvData)
    ensures GetPropSafe(env, "ro.build.display.id")
         == GetPropSafe(env, "ro.build.id") + " " + GetPropSafe(env, "ro.build.keys")
    ensures GetPropSafe(env, "ro.product.device") == GetPropSafe(env, "ro.product.name")
    ensures forall suffix :: suffix in {"", "32", "64"} ==>
      GetPropSafe(env, "ro.system.product.cpu.abilist" + suffix) == GetPropSafe(env, "ro.product.cpu.abilist" + suffix)
  {
    assert "ro.system.product.cpu.abilist" + "" == "ro.system.product.cpu.abilist";
    assert "ro.product.cpu.abilist" + "" == "ro.product.cpu.abilist";
    assert "ro.system.product.cpu.abilist" + "32" == "ro.system.product.cpu.abilist32";
    assert "ro.product.cpu.abilist" + "32" == "ro.product.cpu.abilist32";
    assert "ro.system.product.cpu.abilist" + "64" == "ro.system.product.cpu.abilist64";
    assert "ro.product.cpu.abilist" + "64" == "ro.product.cpu.abilist64";
  }

  /** `ro.build.description` is a fixed string, the same whatever the
      configuration, while the release it would describe follows the
      configuration; its build id is not `ro.build.id`. */
  lemma BuildDescriptionIsFixed(env: EnvData, other: EnvData)
    ensures GetPropSafe(env, "ro.build.description") == GetPropSafe(other, "ro.build.description")
    ensures GetPropSafe(env, "ro.build.version.release") == env.androidVersion
    ensures GetPropSafe(env, "ro.build.id") == BuildId
    ensures GetPropSafe(env, "ro.build.description")[17..32] == DescribedBuildId != GetPropSafe(env, "ro.build.id")
  {
    var d := GetPropSafe(env, "ro.build.description");
    assert d == "mondrian-user 12 " + DescribedBuildId + " release-keys";
    assert d[17..32] == DescribedBuildId;
    assert DescribedBuildId[7] != BuildId[7];
  }

  // ---------------------------------------------------------------------------
  // Dtc->systemGetSafe

  const SystemKeys: set<string> := {
    "java.io.tmpdir", "user.home", "user.locale", "http.agent", "java.vm.version", "os.version",
    "persist.sys.timezone", "java.runtime.version", "java.boot.class.path"
  }

  const BootClassPath: string :=
    "/system/framework/core-oj.jar:/system/framework/core-libart.jar:/system/framework/conscrypt.jar:/system/frameworkhttp.jar:/system/framework/bouncycastle.jar:/system/framework/apache-xml.jar:/system/framework/legacy-test.jar:/system/framework/ext.jar:/system/framework/framework.jar:/system/framework/telephony-common.jar:/system/frameworkoip-common.jar:/system/framework/ims-common.jar:/system/framework/org.apache.http.legacy.boot.jar:/system/framework/android.hidl.base-V1.0-java.jar:/system/framework/android.hidl.manager-V1.0-java.jar:/system/framework/mediatek-common.jar:/system/framework/mediatek-framework.jar:/system/framework/mediatek-telephony-common.jar:/system/framework/mediatek-telephony-base.jar:/system/framework/mediatek-ims-common.jar:/system/framework/mediatek-telecom-common.jar:/system/framework/mediatek-cta.jar"

  /** A Java system property of the fabricated runtime; unknown ones read as "-1". */
  function SystemGetSafe(env: EnvData, key: string): (r: string)
    ensures key !in SystemKeys ==> r == "-1"
    ensures key == "java.io.tmpdir" ==> r == "/data/user/0/" + env.packageName + "/cache"
    ensures key == "http.agent" ==>
      r == "Dalvik/2.1.0 (Linux; U; Android " + env.androidVersion + "; 22101317C Build/" + BuildId + ")"
  {
    match key
    case "java.io.tmpdir" => "/data/user/0/" + env.packageName + "/cache"
    case "user.home" => ""
    case "user.locale" => "zh-CN"
    case "http.agent" => "Dalvik/2.1.0 (Linux; U; Android " + env.androidVersion + "; 22101317C Build/" + BuildId + ")"
    case "java.vm.version" => "2.1.0"
    case "os.version" => "3.18.79"
    case "persist.sys.timezone" => "-1"
    case "java.runtime.version" => "0.9"
    case "java.boot.class.path" => BootClassPath
    case _ => "-1"
  }

  /** The two tables disagree on the time zone: a build property says
      Asia/Shanghai, the system property is the "-1" of an unknown key. */
  lemma TimezoneTablesDiffer(env: EnvData)
    ensures GetPropSafe(env, "persist.sys.timezone") == "Asia/Shanghai"
    ensures SystemGetSafe(env, "persist.sys.timezone") == SystemGetSafe(env, "no.such.property")
  {
  }

  // ---------------------------------------------------------------------------
  // Dtc->getAppVersionName, Dtc->getAppVersionCode

  /** Only the key "empty" is known: it gives the configured version name. */
  function AppVersionName(env: EnvData, key: string): (r: string)
    ensures key == "empty" ==> r == env.version
    ensures key != "empty" ==> r == "-1"
  {
    match key
    case "empty" => env.version
    case _ => "-1"
  }

  /** Only the key "empty" is known: it gives the configured version code. */
  function AppVersionCode(env: EnvData, key: string): (r: string)
    ensures key == "empty" ==> r == env.code
    ensures key != "empty" ==> r == "-1"
  {
    match key
    case "empty" => env.code
    case _ => "-1"
  }

  // ---------------------------------------------------------------------------
  // Dtc->getScreenSize

  /** "[width,height]" in decimal. */
  function ScreenSize(env: EnvData): (r: string)
    ensures |r| >= 5 && r[0] == '[' && r[|r| - 1] == ']'
  {
    "[" + IntToDecimal(env.screenWidth) + "," + IntToDecimal(env.screenHeight) + "]"
  }

  /** The position of the first `c` in `s`, if any. */
  function IndexOf(s: string, c: char): (r: Option<nat>)
    ensures r.Some? ==> r.value < |s| && s[r.value] == c && c !in s[..r.value]
    ensures r.None? ==> c !in s
  {
    if s == [] then None
    else if s[0] == c then Some(0)
    else match IndexOf(s[1..], c)
      case Some(k) => assert s[..k + 1] == [s[0]] + s[1..][..k]; Some(k + 1)
      case None => None
  }

  /** Reads a screen size back: "[", a decimal, ",", a decimal, "]". */
  function ParseScreenSize(s: string): Option<(int, int)>
  {
    if |s| < 2 || s[0] != '[' || s[|s| - 1] != ']' then None
    else
      var inner := s[1..|s| - 1];
      match IndexOf(inner, ',')
      case None => None
      case Some(k) =>
        match (ParseDecimal(inner[..k]), ParseDecimal(inner[k + 1..]))
        case (Some(w), Some(h)) => Some((w, h))
        case _ => None
  }

  lemma NoCommaInDecimal(i: int)
    ensures ',' !in IntToDecimal(i)
  {
    var s := IntToDecimal(i);
    forall k | 0 <= k < |s|
      ensures s[k] != ','
    {
      if k > 0 && i < 0 {
        assert s[1..][k - 1] == s[k];
      }
    }
  }

  /** The screen size string carries the configured width and height. */
  lemma ScreenSizeRoundTrip(env: EnvData)
    ensures ParseScreenSize(ScreenSize(env)) == Some((env.screenWidth, env.screenHeight))
  {
    var w, h := IntToDecimal(env.screenWidth), IntToDecimal(env.screenHeight);
    var s := ScreenSize(env);
    var inner := s[1..|s| - 1];
    assert inner == w + "," + h;
    NoCommaInDecimal(env.screenWidth);
    IndexOfAfter(w, h);
    assert inner[..|w|] == w;
    assert inner[|w| + 1..] == h;
    DecimalRoundTrip(env.screenWidth);
    DecimalRoundTrip(env.screenHeight);
  }

  lemma {:induction false} IndexOfAfter(w: string, h: string)
    requires ',' !in w
    ensures IndexOf(w + "," + h, ',') == Some(|w|)
    decreases |w|
  {
    if w != [] {
      assert (w + "," + h)[1..] == w[1..] + "," + h;
      IndexOfAfter(w[1..], h);
    }
  }

  // ---------------------------------------------------------------------------
  // QsecEst->*(Landroid/content/Context;I)Ljava/lang/String;

  /** The alphabet of the random token of id 86. */
  const Alphanumeric: string := "abcdefghijklmnopqrstuvwxyzABCDEFGHIJKLMNOPQRSTUVWXYZ0123456789"

  /** The token that 32 draws from the alphabet spell. */
  function Token(draws: seq<int>): (r: string)
    requires |draws| == 32 && forall i :: 0 <= i < 32 ==> 0 <= draws[i] < |Alphanumeric|
    ensures |r| == 32 && forall i :: 0 <= i < 32 ==> r[i] in Alphanumeric
  {
    seq(32, i requires 0 <= i < 32 => Alphanumeric[draws[i]])
  }

  /** Builds the token one character at a time, as the `StringBuilder` loop does. */
  method BuildToken(draws: seq<int>) returns (s: string)
    requires |draws| == 32 && forall i :: 0 <= i < 32 ==> 0 <= draws[i] < |Alphanumeric|
    ensures s == Token(draws)
  {
    s := "";
    var i := 0;
    while i < 32
      invariant 0 <= i <= 32
      invariant |s| == i
      invariant forall j :: 0 <= j < i ==> s[j] == Alphanumeric[draws[j]]
    {
      s := s + [Alphanumeric[draws[i]]];
      i := i + 1;
    }
  }

  /** The MD5 of the signing certificate, upper-cased, as ids 26 and `s->d` give it. */
  function SignatureMd5(): (r: string)
    ensures |r| == 32 && forall i :: 0 <= i < 32 ==> !IsAsciiLower(r[i])
  {
    AsciiUppercase("90721e0b3a587f77503b6abedd960c2e")
  }

  /** The ids the table names; id 90 to 105 and every other id read "0". */
  const QsecEstIds: set<int> := {
    0, 1, 23, 25, 26, 27, 28, 31, 41, 42, 43, 44, 45, 46, 47, 48, 49, 50, 51, 52, 68, 70, 71, 72,
    73, 74, 75, 76, 77, 78, 79, 80, 81, 82, 83, 86, 87, 88, 89
  }

  /** One piece of device information, by id. */
  function QsecEstInfo(env: EnvData, id: int, vol: Volatile): (r: string)
    requires ValidVolatile(vol)
    ensures id !in QsecEstIds ==> r == "0"
    ensures 90 <= id <= 105 ==> r == "0"
    ensures id == 28 || id == 43 ==> r == env.packageName
    ensures id == 0 ==> ParseDecimal(r) == Some(env.androidSdkVersion)
    ensures id == 75 ==> ParseDecimal(r).Some? && 0 <= ParseDecimal(r).value <= 500000
    ensures id == 86 ==> |r| == 32 && forall i :: 0 <= i < 32 ==> r[i] in Alphanumeric
    ensures id == 86 ==> r == Token(vol.tokenDraws)
    ensures id == 89 ==> ParseDecimal(r) == Some(vol.nowMillis)
    ensures id == 26 ==> r == SignatureMd5()
    ensures id == 51 ==> r == env.version
    ensures id == 52 ==> r == env.code
  {
    DecimalRoundTrip(env.androidSdkVersion);
    DecimalRoundTrip(vol.randomSample);
    DecimalRoundTrip(vol.nowMillis);
    match id
    case 0 => IntToDecimal(env.androidSdkVersion)
    case 1 => "k1"
    case 23 => "8"                 // number of CPUs
    case 25 => "0.0.12"
    case 26 => SignatureMd5()       // signature MD5
    case 27 => "0"                 // Xposed present
    case 28 => env.packageName
    case 31 => "0"                 // screen locked
    case 41 => ""                  // hardware
    case 42 => "WiFi"
    case 43 => env.packageName
    case 44 => vol.freeMemory      // free memory
    case 45 => env.storageSize     // disk size
    case 46 => "0"                 // qemu environment
    case 47 => "0"                 // qemu files
    case 48 => "0"                 // behind a proxy
    case 49 => "0"                 // su
    case 50 => vol.randomDigits
    case 51 => env.version
    case 52 => env.code
    case 68 => "0"                 // VPN
    case 70 => "java.agent"
    case 71 | 80 => "Asia/Shanghai"
    case 72 => "800,1217"
    case 73 => env.androidVersion
    case 74 => "100"               // screen brightness
    case 75 => IntToDecimal(vol.randomSample)
    case 76 => "1,20,50"
    case 77 => IntToDecimal(1024 * 1024 * 1024 * 32)
    case 78 => "0"                 // su binary
    case 79 => "1.1.2"
    case 81 => "zh"
    case 82 => AsciiUppercase("90721e0b3aaa7f77503b6abedd960c2e")
    case 83 => "0"
    case 86 => Token(vol.tokenDraws)
    case 87 => "0"                 // busybox
    case 88 => "0"                 // magisk
    case 89 => IntToDecimal(vol.nowMillis)
    case _ => "0"                  // ids 90 to 105, and unsupported ids
  }

  // ---------------------------------------------------------------------------
  // s->e(Landroid/content/Context;)I

  /** The integer the protocol embeds for each supported TIM version; any other
      version is an error. */
  function SecProtocolE(version: string): (r: Result<int>)
    ensures r.Ok? <==> version == "3.5.1" || version == "3.5.2"
    ensures version == "3.5.1" ==> r == Ok(345546704)
    ensures version == "3.5.2" ==> r == Ok(345971138)
  {
    match version
    case "3.5.1" => Ok(345546704)
    case "3.5.2" => Ok(345971138)
    case _ => Err("不支持该TIM版本")
  }

  // ---------------------------------------------------------------------------
  // File->canRead()Z

  /** The four spellings of the app's parent data directory the module must not
      be able to read. */
  function RefusedPaths(env: EnvData): set<string> {
    { "\\data\\data\\" + env.packageName + "\\..",
      "/data/data/" + env.packageName + "/..",
      "/data/data/",
      "/data/data" }
  }

  predicate CanReadRefused(env: EnvData, path: string) {
    path in RefusedPaths(env)
  }

  /** The refusal is about the configured package only: the parent of another
      package's data directory is not refused. */
  lemma CanReadRefusedOwnPackage(env: EnvData, other: string)
    requires other != env.packageName
    ensures CanReadRefused(env, "/data/data/" + env.packageName + "/..")
    ensures !CanReadRefused(env, "/data/data/" + other + "/..")
  {
    var p := "/data/data/" + other + "/..";
    var q := "/data/data/" + env.packageName + "/..";
    var b := "\\data\\data\\" + env.packageName + "\\..";
    assert p[11..|p| - 3] == other;
    assert q[11..|q| - 3] == env.packageName;
    assert p[0] != b[0];
    assert |p| > |"/data/data/"|;
  }
}
