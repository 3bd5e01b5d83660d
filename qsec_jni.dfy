/** `QSecJni`: the JNI environment the emulated signing module calls into.
    Every call arrives with its signature string; each override answers the
    signatures it knows by exact comparison, in order, and hands every other
    call to the base class of the emulated runtime (`Unhandled` here). */
module UnidbgEnv {
  import opened Common
  import opened Session
  import opened DeviceFacts
  import JavaString
  import Base64

  // ---------------------------------------------------------------------------
  // Signatures

  const SdkIntSig: string := "android/os/Build$VERSION->SDK_INT:I"
  const TargetSdkSig: string := "android/content/pm/ApplicationInfo->targetSdkVersion:I"

  const LogInfoSig: string := "com/tencent/mobileqq/fe/IFEKitLog->i(Ljava/lang/String;ILjava/lang/String;)V"
  const LogErrorSig: string := "com/tencent/mobileqq/fe/IFEKitLog->e(Ljava/lang/String;ILjava/lang/String;)V"
  const SendMessageSig: string := "com/tencent/mobileqq/channel/ChannelProxy->sendMessage(Ljava/lang/String;[BJ)V"
  const UpdateO3didSig: string := "com/tencent/mobileqq/qsec/qsecurity/QSec->updateO3DID(Ljava/lang/String;)V"
  const PutUpingSig: string := "com/tencent/secprotocol/ByteData->putUping(IIILjava/lang/Object;)V"

  const BusinessUinSig: string := "com/tencent/mobileqq/qsec/qsecurity/QSecConfig->business_uin:Ljava/lang/String;"
  const BusinessSeedSig: string := "com/tencent/mobileqq/qsec/qsecurity/QSecConfig->business_seed:Ljava/lang/String;"
  const BusinessGuidSig: string := "com/tencent/mobileqq/qsec/qsecurity/QSecConfig->business_guid:Ljava/lang/String;"
  const BusinessO3didSig: string := "com/tencent/mobileqq/qsec/qsecurity/QSecConfig->business_o3did:Ljava/lang/String;"
  const BusinessQ36Sig: string := "com/tencent/mobileqq/qsec/qsecurity/QSecConfig->business_q36:Ljava/lang/String;"
  const BusinessQuaSig: string := "com/tencent/mobileqq/qsec/qsecurity/QSecConfig->business_qua:Ljava/lang/String;"

  const HashCodeSig: string := "java/lang/String->hashCode()I"

  const MmKVValueSig: string := "com/tencent/mobileqq/dt/app/Dtc->mmKVValue(Ljava/lang/String;)Ljava/lang/String;"
  const SettingsGetStringSig: string := "android/provider/Settings$System->getString(Landroid/content/ContentResolver;Ljava/lang/String;)Ljava/lang/String;"
  const CheckResultSig: string := "com/tencent/mobileqq/fe/utils/DeepSleepDetector->getCheckResult()Ljava/lang/String;"
  const FEBoundSig: string := "com/tencent/mobileqq/dt/model/FEBound->transform(I[B)[B"
  const SystemClassLoaderSig: string := "java/lang/ClassLoader->getSystemClassLoader()Ljava/lang/ClassLoader;"
  const GetPropSafeSig: string := "com/tencent/mobileqq/dt/app/Dtc->getPropSafe(Ljava/lang/String;)Ljava/lang/String;"
  const AppVersionNameSig: string := "com/tencent/mobileqq/dt/app/Dtc->getAppVersionName(Ljava/lang/String;)Ljava/lang/String;"
  const AppVersionCodeSig: string := "com/tencent/mobileqq/dt/app/Dtc->getAppVersionCode(Ljava/lang/String;)Ljava/lang/String;"
  const AppInstallTimeSig: string := "com/tencent/mobileqq/dt/app/Dtc->getAppInstallTime(Ljava/lang/String;)Ljava/lang/String;"
  const DensitySig: string := "com/tencent/mobileqq/dt/app/Dtc->getDensity(Ljava/lang/String;)Ljava/lang/String;"
  const FontDpiSig: string := "com/tencent/mobileqq/dt/app/Dtc->getFontDpi(Ljava/lang/String;)Ljava/lang/String;"
  const ScreenSizeSig: string := "com/tencent/mobileqq/dt/app/Dtc->getScreenSize(Ljava/lang/String;)Ljava/lang/String;"
  const StorageSig: string := "com/tencent/mobileqq/dt/app/Dtc->getStorage(Ljava/lang/String;)Ljava/lang/String;"
  const SystemGetSafeSig: string := "com/tencent/mobileqq/dt/app/Dtc->systemGetSafe(Ljava/lang/String;)Ljava/lang/String;"
  const ImeSig: string := "com/tencent/mobileqq/dt/app/Dtc->getIME(Ljava/lang/String;)Ljava/lang/String;"
  const CurrentThreadSig: string := "java/lang/Thread->currentThread()Ljava/lang/Thread;"
  const QsecEstPrefix: string := "com/tencent/mobileqq/qsec/qsecest/QsecEst->"
  const QsecEstSuffix: string := "(Landroid/content/Context;I)Ljava/lang/String;"
  const SecProtocolClass: string := "com/tencent/secprotocol/t/s->"
  const ContextStringGetter: string := "(Landroid/content/Context;)Ljava/lang/String;"
  const SecCSig: string := SecProtocolClass + "c" + ContextStringGetter
  const SecDSig: string := SecProtocolClass + "d" + ContextStringGetter

  const SecESig: string := SecProtocolClass + "e(Landroid/content/Context;)I"

  const GetEstInfoSig: string := "com/tencent/mobileqq/qsec/qsecurity/QSec->getEstInfo()Ljava/lang/String;"
  const ContextClass: string := "android/content/Context->"
  const AppInfoSig: string := ContextClass + "getApplicationInfo()Landroid/content/pm/ApplicationInfo;"
  const FilesDirSig: string := ContextClass + "getFilesDir()Ljava/io/File;"
  const ContentResolverSig: string := ContextClass + "getContentResolver" + "()Landroid/content/ContentResolver;"
  const QueryIntentServicesSig: string :=
    "android/content/pm/PackageManager->queryIntentServices(Landroid/content/Intent;I)Ljava/util/List;"
  const AddCategorySig: string := "android/content/Intent->addCategory(Ljava/lang/String;)Landroid/content/Intent;"
  const FileResourcePathSig: string := "java/io/File->getPackageResourcePath()Ljava/lang/String;"
  const ContextResourcePathSig: string := ContextClass + "getPackageResourcePath()Ljava/lang/String;"
  const PackageNameSig: string := ContextClass + "getPackageName()Ljava/lang/String;"
  const LoadClassSig: string := "java/lang/ClassLoader->loadClass(Ljava/lang/String;)Ljava/lang/Class;"
  const StackTraceSig: string := "java/lang/Thread->getStackTrace()[Ljava/lang/StackTraceElement;"
  const ExternalFilesDirSig: string := ContextClass + "getExternalFilesDir" + "(Ljava/lang/String;)Ljava/io/File;"
  const ContextToStringSig: string := ContextClass + "toString()Ljava/lang/String;"

  const StopCheckSig: string := "com/tencent/mobileqq/fe/utils/DeepSleepDetector->stopCheck()V"
  const MmKVSaveSig: string := "com/tencent/mobileqq/dt/app/Dtc->mmKVSaveValue(Ljava/lang/String;Ljava/lang/String;)V"
  const SaveListSig: string := "com/tencent/mobileqq/dt/app/Dtc->saveList(Ljava/lang/String;Ljava/lang/String;Ljava/lang/String;Ljava/lang/String;Ljava/lang/String;Ljava/lang/String;Ljava/lang/String;)V"

  const QsecEstPSig: string := QsecEstPrefix + "p" + QsecEstSuffix
  const GoingUpSig: string := "com/tencent/qqprotect/qsec/QSecFramework->goingUp(JJJJLjava/lang/Object;Ljava/lang/Object;[Ljava/lang/Object;[Ljava/lang/Object;)I"

  const CanReadSig: string := "java/io/File->canRead()Z"

  /** The package whose own code paths `acceptMethod` leaves to the module. */
  const MobileQQ: string := "com.tencent.mobileqq"

  const VoidSigs: set<string> := {LogInfoSig, LogErrorSig, SendMessageSig, UpdateO3didSig, PutUpingSig}
  const BusinessSigs: set<string> :=
    {BusinessUinSig, BusinessSeedSig, BusinessGuidSig, BusinessO3didSig, BusinessQ36Sig, BusinessQuaSig}
  const StaticVoidSigs: set<string> := {StopCheckSig, MmKVSaveSig, SaveListSig}

  /** Static object methods whose first argument is a string key. */
  const KeyedSigs: set<string> := {MmKVValueSig, GetPropSafeSig, AppVersionNameSig, AppVersionCodeSig, SystemGetSafeSig}

  /** Static object methods answered by exact signature, in the three runs of
      tests of `callStaticObjectMethodV`. */
  const SessionObjectSigs: set<string> :=
    {MmKVValueSig, SettingsGetStringSig, CheckResultSig, FEBoundSig, SystemClassLoaderSig}
  const DeviceObjectSigs: set<string> := {
    GetPropSafeSig, AppVersionNameSig, AppVersionCodeSig, AppInstallTimeSig, DensitySig,
    FontDpiSig, ScreenSizeSig, StorageSig, SystemGetSafeSig, ImeSig
  }
  const ProtocolObjectSigs: set<string> := {CurrentThreadSig, SecCSig, SecDSig}
  const StaticObjectSigs: set<string> := SessionObjectSigs + DeviceObjectSigs + ProtocolObjectSigs

  /** The instance object methods `callObjectMethodV` answers itself. */
  const ObjectMethodSigs: set<string> := {
    AppInfoSig, FilesDirSig, ContentResolverSig, QueryIntentServicesSig, AddCategorySig, FileResourcePathSig,
    ContextResourcePathSig, PackageNameSig, LoadClassSig, StackTraceSig, GetEstInfoSig, ExternalFilesDirSig,
    ContextToStringSig
  }

  /** The input method the emulated device reports. */
  const Ime: string := "com.baidu.input_mi/.ImeService"

  /** Every `QsecEst` information getter: `QsecEst->x(Landroid/content/Context;I)Ljava/lang/String;`. */
  predicate IsQsecEstSig(signature: string) {
    StartsWith(signature, QsecEstPrefix) && EndsWith(signature, QsecEstSuffix)
  }

  // ---------------------------------------------------------------------------
  // Calls, arguments, results and host helpers

  /** One entry of the variadic argument list of a call. */
  datatype Arg = StrArg(str: string) | IntArg(i32: int) | LongArg(i64: int) | BytesArg(bytes: seq<byte>) | ObjectArg

  predicate HasStr(args: seq<Arg>, i: nat) {
    i < |args| && args[i].StrArg?
  }

  predicate HasInt(args: seq<Arg>, i: nat) {
    i < |args| && args[i].IntArg?
  }

  /** What an object method hands back to the guest: a string, a byte array
      (possibly null), a `java.io.File` with its path, a list or an array with
      its elements, or an object known only by its class. */
  datatype JObject =
    | JString(str: string)
    | JBytes(bytes: Option<seq<byte>>)
    | JFile(path: string)
    | JList(items: seq<JObject>)
    | JArray(elements: seq<JObject>)
    | JHandle(className: string)

  /** Host code whose source is not part of this model: `toHexString`,
      `DeepSleepDetector.getCheckResult` (by its stopped flag), `FEBound.transform`
      and `FileResolver.getAppInstallFolder`. */
  datatype Host = Host(
    toHex: seq<byte> -> string,
    checkResult: bool -> string,
    feTransform: (int, seq<byte>) -> Option<seq<byte>>,
    appInstallFolder: string -> string)

  function JStringOf(r: Result<string>): (a: Answer<JObject>)
    ensures r.Ok? ==> a == Handled(JString(r.value))
    ensures r.Err? ==> a == Fault(r.message)
  {
    match r
    case Ok(s) => Handled(JString(s))
    case Err(m) => Fault(m)
  }

  // ---------------------------------------------------------------------------
  // Dtc->mmKVValue

  const UuidKey: string := "MQQ_SP_DEVICETOKEN_DID_DEVICEIDUUID_202207072241"

  const MmKVKeys: set<string> := {
    "TuringRiskID-TuringCache-20230511", "o3_switch_Xwid", "o3_xwid_switch", "DeviceToken-oaid-V001",
    "DeviceToken-MODEL-XX-V001", "DeviceToken-ANDROID-ID-V001", "DeviceToken-qimei36-V001", UuidKey,
    "DeviceToken-APN-V001", "DeviceToken-TuringCache-V001", "DeviceToken-MAC-ADR-V001", "DeviceToken-wifissid-V001"
  }

  /** A persisted preference of the guest. Only the o3 switch and the qimei36
      entries read the session map; a key outside the catalog is an error. */
  function MmKVValue(env: EnvData, values: map<string, Value>, key: string, uuid: string): (r: Result<string>)
    ensures r.Ok? <==> key in MmKVKeys
    ensures key == "o3_switch_Xwid" || key == "o3_xwid_switch" ==> r == Ok(StringOr(values, O3SwitchKey, "1"))
    ensures key == "DeviceToken-qimei36-V001" ==> r == Ok(StringOr(values, Qimei36Key, ""))
    ensures key == UuidKey ==> r == Ok(uuid + "|" + env.version)
  {
    match key
    case "TuringRiskID-TuringCache-20230511" => Ok("")
    case "o3_switch_Xwid" | "o3_xwid_switch" => Ok(StringOr(values, O3SwitchKey, "1"))
    case "DeviceToken-oaid-V001" => Ok("")
    case "DeviceToken-MODEL-XX-V001" => Ok("")
    case "DeviceToken-ANDROID-ID-V001" => Ok("")
    case "DeviceToken-qimei36-V001" => Ok(StringOr(values, Qimei36Key, ""))
    case "MQQ_SP_DEVICETOKEN_DID_DEVICEIDUUID_202207072241" => Ok(uuid + "|" + env.version)
    case "DeviceToken-APN-V001" | "DeviceToken-TuringCache-V001" | "DeviceToken-MAC-ADR-V001"
       | "DeviceToken-wifissid-V001" => Ok("-1")
    case _ => Err("Not support mmKVValue:" + key)
  }

  /** A value saved under "o3_switch_Xwid" is what both switch keys read back;
      before any save they read "1". */
  lemma MmKVSwitchRoundTrip(env: EnvData, values: map<string, Value>, v: string, key: string, uuid: string)
    requires key == "o3_switch_Xwid" || key == "o3_xwid_switch"
    ensures MmKVValue(env, values[O3SwitchKey := Str(v)], key, uuid) == Ok(v)
    ensures O3SwitchKey !in values ==> MmKVValue(env, values, key, uuid) == Ok("1")
  {
  }

  /** qimei36 is read under its own session key, not under the preference key
      the guest asks for: saving under the preference key changes nothing. */
  lemma MmKVQimeiSource(env: EnvData, values: map<string, Value>, v: string, uuid: string)
    ensures MmKVValue(env, values[Qimei36Key := Str(v)], "DeviceToken-qimei36-V001", uuid) == Ok(v)
    ensures MmKVValue(env, values["DeviceToken-qimei36-V001" := Str(v)], "DeviceToken-qimei36-V001", uuid)
         == MmKVValue(env, values, "DeviceToken-qimei36-V001", uuid)
  {
    StringOrAfterPut(values, "DeviceToken-qimei36-V001", v, Qimei36Key, "");
  }

  // ---------------------------------------------------------------------------
  // QSec->getEstInfo

  predicate HasEstData(values: map<string, Value>) {
    EstDataKey in values && values[EstDataKey].Bytes?
  }

  /** "e_null" without a byte array under "est_data", otherwise its base 64 text
      (section 4 of RFC 4648), which decodes back to the stored bytes. */
  function EstInfo(values: map<string, Value>): (r: string)
    ensures r == "e_null" <==> !HasEstData(values)
    ensures HasEstData(values) ==> r == Base64.Encode(values[EstDataKey].bytes)
    ensures HasEstData(values) ==> Base64.Decode(r) == Some(values[EstDataKey].bytes)
  {
    if HasEstData(values) then
      var data := values[EstDataKey].bytes;
      Base64.DecodeEncode(data);
      var r := Base64.Encode(data);
      assert |r| != |"e_null"|;
      r
    else "e_null"
  }

  /** The answer is the only text that decodes to the stored bytes: a guest
      decoding it cannot tell it from any other rendering, because there is none. */
  lemma EstInfoIsTheOnlyText(values: map<string, Value>, text: string)
    requires HasEstData(values) && Base64.Decode(text) == Some(values[EstDataKey].bytes)
    ensures text == EstInfo(values)
  {
    Base64.EncodeDecode(text, values[EstDataKey].bytes);
  }

  // ---------------------------------------------------------------------------
  // The effects of the state-changing handlers

  /** What `sendMessage` does: nothing for correlation id -1; otherwise it
      appends the packet to the PACKET list and then releases the mutex. A
      missing or mistyped entry makes the cast throw at that point. */
  twostate predicate SendMessageEffect(values: map<string, Value>, packet: SsoPacket, new r: Answer<()>)
    reads PacketFrame(values)
  {
    var list, mutex := PacketListOf(values), MutexOf(values);
    if packet.callbackId == -1 then
      r == Handled(()) && unchanged(PacketFrame(values))
    else if list.None? then
      r.Fault? && unchanged(PacketFrame(values))
    else
      && list.value.items == old(list.value.items) + [packet]
      && if mutex.None? then r.Fault? else r == Handled(()) && !mutex.value.locked
  }

  /** The arguments a void method reads have the kinds its casts expect; when
      they do not, the cast throws before anything changes. */
  predicate VoidArgsOk(signature: string, args: seq<Arg>) {
    && (signature in {LogInfoSig, LogErrorSig} ==> HasStr(args, 0) && HasStr(args, 2))
    && (signature == SendMessageSig ==> HasStr(args, 0) && 1 < |args| && args[1].BytesArg? && 2 < |args| && args[2].LongArg?)
    && (signature == UpdateO3didSig ==> HasStr(args, 0))
  }

  const DetectorCastFault: string := "cannot cast global[DeepSleepDetector] to DeepSleepDetector"

  /** What `stopCheck` does: marks an existing detector stopped; with no entry
      it does nothing and creates none; an entry of another type fails the cast. */
  twostate predicate StopCheckEffect(values: map<string, Value>, new r: Answer<()>)
    reads DetectorFrame(values)
  {
    if DetectorKey !in values then r == Handled(())
    else if values[DetectorKey].Detector? then r == Handled(()) && values[DetectorKey].detector.stopped
    else r == Fault(DetectorCastFault)
  }

  // ---------------------------------------------------------------------------
  // What `callStaticObjectMethodV` answers, run by run

  /** mmKVValue, Settings.System.getString, getCheckResult, FEBound.transform
      and getSystemClassLoader. An argument that is missing or of the wrong
      kind makes the cast throw. */
  predicate SessionObjectAnswer(env: EnvData, host: Host, values: map<string, Value>, signature: string,
                                args: seq<Arg>, vol: Volatile, r: Answer<JObject>)
    reads DetectorFrame(values)
  {
    && (signature == MmKVValueSig ==>
          if HasStr(args, 0) then r == JStringOf(MmKVValue(env, values, args[0].str, vol.uuid)) else r.Fault?)
    && (signature == SettingsGetStringSig && HasStr(args, 1) ==>
          r == if args[1].str == "android_id" then Handled(JString(AsciiLowercase(env.androidId))) else Unhandled)
    && (signature == SettingsGetStringSig && !HasStr(args, 1) ==> r.Fault?)
    && (signature == CheckResultSig ==>
          r == if DetectorOf(values).Some?
               then Handled(JString(host.checkResult(DetectorOf(values).value.stopped)))
               else Fault(DetectorCastFault))
    && (signature == FEBoundSig && HasInt(args, 0) && 1 < |args| && args[1].BytesArg? ==>
          r == Handled(JBytes(host.feTransform(args[0].i32, args[1].bytes))))
    && (signature == FEBoundSig && !(HasInt(args, 0) && 1 < |args| && args[1].BytesArg?) ==> r.Fault?)
    && (signature == SystemClassLoaderSig ==> r == Handled(JHandle("java/lang/ClassLoader")))
  }

  /** The `Dtc` device-fact getters. */
  predicate DeviceObjectAnswer(env: EnvData, signature: string, args: seq<Arg>, vol: Volatile, r: Answer<JObject>) {
    && (signature in KeyedSigs && !HasStr(args, 0) ==> r.Fault?)
    && (signature == GetPropSafeSig && HasStr(args, 0) ==> r == Handled(JString(GetPropSafe(env, args[0].str))))
    && (signature == AppVersionNameSig && HasStr(args, 0) ==> r == Handled(JString(AppVersionName(env, args[0].str))))
    && (signature == AppVersionCodeSig && HasStr(args, 0) ==> r == Handled(JString(AppVersionCode(env, args[0].str))))
    && (signature == AppInstallTimeSig ==> r == Handled(JString(IntToDecimal(vol.installTime))))
    && (signature == DensitySig || signature == FontDpiSig ==> r == Handled(JString(env.density)))
    && (signature == ScreenSizeSig ==> r == Handled(JString(ScreenSize(env))))
    && (signature == StorageSig ==> r == Handled(JString(env.storageSize)))
    && (signature == SystemGetSafeSig && HasStr(args, 0) ==> r == Handled(JString(SystemGetSafe(env, args[0].str))))
    && (signature == ImeSig ==> r == Handled(JString(Ime)))
  }

  /** currentThread, the `QsecEst` information table and the `s->c`/`s->d` getters. */
  predicate ProtocolObjectAnswer(env: EnvData, signature: string, args: seq<Arg>, vol: Volatile, r: Answer<JObject>)
    requires ValidVolatile(vol)
  {
    && (signature == CurrentThreadSig ==> r == Handled(JHandle("java/lang/Thread")))
    && (signature != CurrentThreadSig && IsQsecEstSig(signature) ==>
          if HasInt(args, 1) then r == Handled(JString(QsecEstInfo(env, args[1].i32, vol))) else r.Fault?)
    && (signature == SecCSig ==> r == Handled(JString(env.packageName)))
    && (signature == SecDSig ==> r == Handled(JString(SignatureMd5())))
  }

  class QSecJni {
    const env: EnvData
    const host: Host
    const global: GlobalData

    constructor (env: EnvData, host: Host, global: GlobalData)
      ensures this.env == env && this.host == host && this.global == global
    {
      this.env := env;
      this.host := host;
      this.global := global;
    }

    // -------------------------------------------------------------------------
    // Integer fields

    method GetStaticIntField(signature: string) returns (r: Answer<int>)
      ensures signature == SdkIntSig ==> r == Handled(env.androidSdkVersion)
      ensures signature != SdkIntSig ==> r == Unhandled
    {
      if signature == SdkIntSig {
        return Handled(env.androidSdkVersion);
      }
      return Unhandled;
    }

    method GetIntField(signature: string) returns (r: Answer<int>)
      ensures signature == TargetSdkSig ==> r == Handled(env.targetSdkVersion)
      ensures signature != TargetSdkSig ==> r == Unhandled
    {
      if signature == TargetSdkSig {
        return Handled(env.targetSdkVersion);
      }
      return Unhandled;
    }

    // -------------------------------------------------------------------------
    // Void instance methods: logging, sendMessage, updateO3DID, putUping

    /** `ChannelProxy.sendMessage(cmd, data, callbackId)`. */
    method SendMessage(cmd: string, data: seq<byte>, callbackId: int) returns (r: Answer<()>)
      modifies PacketFrame(global.values)
      ensures SendMessageEffect(old(global.values), SsoPacket(cmd, host.toHex(data), callbackId), r)
    {
      var hex := host.toHex(data);
      if callbackId == -1 {
        return Handled(());
      }
      var list := PacketListOf(global.values);
      if list.None? {
        return Fault("cannot cast global[PACKET] to ArrayList");
      }
      list.value.items := list.value.items + [SsoPacket(cmd, hex, callbackId)];
      var mutex := MutexOf(global.values);
      if mutex.None? {
        return Fault("cannot cast global[mutex] to Mutex");
      }
      if mutex.value.locked {
        mutex.value.locked := false;
      }
      return Handled(());
    }

    /** Two packets sent one after the other are queued in that order, and the
        consumer's lock is released. */
    method SendTwice(cmd1: string, data1: seq<byte>, id1: int, cmd2: string, data2: seq<byte>, id2: int)
      returns (r1: Answer<()>, r2: Answer<()>)
      requires id1 != -1 && id2 != -1
      requires PacketListOf(global.values).Some? && MutexOf(global.values).Some?
      modifies PacketFrame(global.values)
      ensures r1 == Handled(()) && r2 == Handled(())
      ensures PacketListOf(global.values).value.items == old(PacketListOf(global.values).value.items)
                + [SsoPacket(cmd1, host.toHex(data1), id1), SsoPacket(cmd2, host.toHex(data2), id2)]
      ensures !MutexOf(global.values).value.locked
    {
      r1 := SendMessage(cmd1, data1, id1);
      r2 := SendMessage(cmd2, data2, id2);
    }

    /** A packet with correlation id -1 is dropped: neither the queue nor the lock changes. */
    method SendUncorrelated(cmd: string, data: seq<byte>) returns (r: Answer<()>)
      modifies PacketFrame(global.values)
      ensures r == Handled(())
      ensures unchanged(PacketFrame(global.values))
    {
      r := SendMessage(cmd, data, -1);
    }

    /** `QSec.updateO3DID(o3did)`: stores the id under "o3did". */
    method UpdateO3DID(o3did: string)
      modifies global
      ensures global.values == old(global.values)[O3didKey := Str(o3did)]
    {
      global.Put(O3didKey, Str(o3did));
    }

    /** `callVoidMethodV`. Only a well-formed `updateO3DID` changes the
        session map, and only a well-formed `sendMessage` touches the packet
        list and the lock. */
    method CallVoidMethodV(signature: string, args: seq<Arg>) returns (r: Answer<()>)
      modifies global, PacketFrame(global.values)
      ensures signature == SendMessageSig && VoidArgsOk(signature, args) ==>
        SendMessageEffect(old(global.values), SsoPacket(args[0].str, host.toHex(args[1].bytes), args[2].i64), r)
      ensures signature == UpdateO3didSig && VoidArgsOk(signature, args) ==>
        r == Handled(()) && global.values == old(global.values)[O3didKey := Str(args[0].str)]
      ensures signature in {LogInfoSig, LogErrorSig, PutUpingSig} && VoidArgsOk(signature, args) ==> r == Handled(())
      ensures signature in VoidSigs && !VoidArgsOk(signature, args) ==> r.Fault?
      ensures signature !in VoidSigs ==> r == Unhandled
      ensures !(signature == UpdateO3didSig && VoidArgsOk(signature, args)) ==> unchanged(global)
      ensures !(signature == SendMessageSig && VoidArgsOk(signature, args)) ==> unchanged(PacketFrame(old(global.values)))
    {
      if signature == LogInfoSig || signature == LogErrorSig {
        if !HasStr(args, 0) || !HasStr(args, 2) {
          return Fault("log arguments are not strings");
        }
        return Handled(());
      }
      if signature == SendMessageSig {
        if !HasStr(args, 0) || |args| < 2 || !args[1].BytesArg? || |args| < 3 || !args[2].LongArg? {
          return Fault("sendMessage arguments are not (String, byte[], long)");
        }
        r := SendMessage(args[0].str, args[1].bytes, args[2].i64);
        return;
      }
      if signature == UpdateO3didSig {
        if !HasStr(args, 0) {
          return Fault("updateO3DID argument is not a string");
        }
        UpdateO3DID(args[0].str);
        return Handled(());
      }
      if signature == PutUpingSig {
        return Handled(());
      }
      return Unhandled;
    }

    // -------------------------------------------------------------------------
    // Static object fields: QSecConfig.business_*

    method GetStaticObjectField(signature: string) returns (r: Answer<string>)
      ensures signature == BusinessUinSig ==> r == AnswerOf(StringAt(global.values, UinKey))
      ensures signature == BusinessSeedSig ==> r == Handled(StringOr(global.values, SeedKey, ""))
      ensures signature == BusinessGuidSig ==> r == Handled(StringOr(global.values, GuidKey, ""))
      ensures signature == BusinessO3didSig ==> r == Handled(StringOr(global.values, O3didKey, ""))
      ensures signature == BusinessQ36Sig ==> r == Handled(StringOr(global.values, Qimei36Key, ""))
      ensures signature == BusinessQuaSig ==> r == Handled(env.qua)
      ensures signature !in BusinessSigs ==> r == Unhandled
    {
      if signature == BusinessUinSig {
        return AnswerOf(StringAt(global.values, UinKey));
      }
      if signature == BusinessSeedSig {
        return Handled(StringOr(global.values, SeedKey, ""));
      }
      if signature == BusinessGuidSig {
        return Handled(StringOr(global.values, GuidKey, ""));
      }
      if signature == BusinessO3didSig {
        return Handled(StringOr(global.values, O3didKey, ""));
      }
      if signature == BusinessQ36Sig {
        return Handled(StringOr(global.values, Qimei36Key, ""));
      }
      if signature == BusinessQuaSig {
        return Handled(env.qua);
      }
      return Unhandled;
    }

    /** After `updateO3DID(s)` the guest reads `business_o3did` as `s`. */
    method UpdateThenReadO3did(s: string) returns (r: Answer<string>)
      modifies global
      ensures r == Handled(s)
    {
      UpdateO3DID(s);
      r := GetStaticObjectField(BusinessO3didSig);
    }

    // -------------------------------------------------------------------------
    // String.hashCode

    method CallIntMethodV(signature: string, receiver: string) returns (r: Answer<int>)
      ensures signature == HashCodeSig ==>
        r == Handled(JavaString.ToInt32(JavaString.Polynomial(JavaString.Utf16(receiver))))
      ensures signature != HashCodeSig ==> r == Unhandled
    {
      if signature == HashCodeSig {
        return Handled(JavaString.StringHashCode(receiver));
      }
      return Unhandled;
    }

    // -------------------------------------------------------------------------
    // Static object methods: the device-fact tables

    /** `callStaticObjectMethodV`: the three runs of tests, in source order. */
    method CallStaticObjectMethodV(signature: string, args: seq<Arg>, vol: Volatile) returns (r: Answer<JObject>)
      requires ValidVolatile(vol)
      ensures signature in SessionObjectSigs ==> SessionObjectAnswer(env, host, global.values, signature, args, vol, r)
      ensures signature !in SessionObjectSigs && signature in DeviceObjectSigs ==>
        DeviceObjectAnswer(env, signature, args, vol, r)
      ensures signature !in SessionObjectSigs && signature !in DeviceObjectSigs ==>
        ProtocolObjectAnswer(env, signature, args, vol, r)
      ensures signature !in StaticObjectSigs && !IsQsecEstSig(signature) ==> r == Unhandled
    {
      if signature in SessionObjectSigs {
        r := SessionObjectMethod(signature, args, vol);
      } else if signature in DeviceObjectSigs {
        r := DeviceObjectMethod(signature, args, vol);
      } else {
        r := ProtocolObjectMethod(signature, args, vol);
      }
    }

    /** The static object methods that read the session map or host helpers. */
    method SessionObjectMethod(signature: string, args: seq<Arg>, vol: Volatile) returns (r: Answer<JObject>)
      requires signature in SessionObjectSigs
      ensures SessionObjectAnswer(env, host, global.values, signature, args, vol, r)
    {
      if signature == MmKVValueSig {
        if !HasStr(args, 0) {
          return Fault("mmKVValue argument is not a string");
        }
        return JStringOf(MmKVValue(env, global.values, args[0].str, vol.uuid));
      }
      if signature == SettingsGetStringSig {
        if !HasStr(args, 1) {
          return Fault("Settings.System.getString key is not a string");
        }
        if args[1].str == "android_id" {
          return Handled(JString(AsciiLowercase(env.androidId)));
        }
        // any other key falls through the remaining tests to the base class
        return Unhandled;
      }
      if signature == CheckResultSig {
        var detector := DetectorOf(global.values);
        if detector.None? {
          return Fault(DetectorCastFault);
        }
        return Handled(JString(host.checkResult(detector.value.stopped)));
      }
      if signature == FEBoundSig {
        if !HasInt(args, 0) || |args| < 2 || !args[1].BytesArg? {
          return Fault("FEBound.transform arguments are not (int, byte[])");
        }
        return Handled(JBytes(host.feTransform(args[0].i32, args[1].bytes)));
      }
      return Handled(JHandle("java/lang/ClassLoader"));
    }

    /** The `Dtc` device-fact getters. */
    method DeviceObjectMethod(signature: string, args: seq<Arg>, vol: Volatile) returns (r: Answer<JObject>)
      requires signature in DeviceObjectSigs
      ensures DeviceObjectAnswer(env, signature, args, vol, r)
    {
      if signature == GetPropSafeSig || signature == AppVersionNameSig || signature == AppVersionCodeSig {
        if !HasStr(args, 0) {
          return Fault("property key is not a string");
        }
        var key := args[0].str;
        var value := if signature == GetPropSafeSig then GetPropSafe(env, key)
                     else if signature == AppVersionNameSig then AppVersionName(env, key)
                     else AppVersionCode(env, key);
        return Handled(JString(value));
      }
      if signature == AppInstallTimeSig {
        return Handled(JString(IntToDecimal(vol.installTime)));
      }
      if signature == DensitySig || signature == FontDpiSig {
        return Handled(JString(env.density));
      }
      if signature == ScreenSizeSig {
        return Handled(JString(ScreenSize(env)));
      }
      if signature == StorageSig {
        return Handled(JString(env.storageSize));
      }
      if signature == SystemGetSafeSig {
        if !HasStr(args, 0) {
          return Fault("system property key is not a string");
        }
        return Handled(JString(SystemGetSafe(env, args[0].str)));
      }
      return Handled(JString(Ime));
    }

    /** The remaining static object methods: the current thread, the `QsecEst`
        information table and the two `s` getters; anything else goes to the base class. */
    method ProtocolObjectMethod(signature: string, args: seq<Arg>, vol: Volatile) returns (r: Answer<JObject>)
      requires ValidVolatile(vol)
      ensures ProtocolObjectAnswer(env, signature, args, vol, r)
      ensures signature !in ProtocolObjectSigs && !IsQsecEstSig(signature) ==> r == Unhandled
    {
      if signature == CurrentThreadSig {
        return Handled(JHandle("java/lang/Thread"));
      }
      if signature == SecCSig || signature == SecDSig {
        SecProtocolIsNotQsecEst(signature);
        SecGettersDistinct();
      }
      if IsQsecEstSig(signature) {
        if !HasInt(args, 1) {
          return Fault("QsecEst id is not an int");
        }
        var id := args[1].i32;
        var info: string;
        if id == 86 {
          info := BuildToken(vol.tokenDraws);
        } else {
          info := QsecEstInfo(env, id, vol);
        }
        return Handled(JString(info));
      }
      if signature == SecCSig {
        return Handled(JString(env.packageName));
      }
      if signature == SecDSig {
        return Handled(JString(SignatureMd5()));
      }
      return Unhandled;
    }


    // -------------------------------------------------------------------------
    // s->e: the version-locked constant

    method CallStaticIntMethodV(signature: string) returns (r: Answer<int>)
      ensures signature == SecESig ==> r == AnswerOf(SecProtocolE(env.version))
      ensures signature == SecESig ==> (r.Handled? <==> env.version in {"3.5.1", "3.5.2"})
      ensures signature != SecESig ==> r == Unhandled
    {
      if signature == SecESig {
        return AnswerOf(SecProtocolE(env.version));
      }
      return Unhandled;
    }

    // -------------------------------------------------------------------------
    // Static void methods: stopCheck, mmKVSaveValue, saveList

    /** `DeepSleepDetector.stopCheck()`. */
    method StopCheck() returns (r: Answer<()>)
      modifies DetectorFrame(global.values)
      ensures StopCheckEffect(old(global.values), r)
    {
      if DetectorKey in global.values {
        var entry := global.values[DetectorKey];
        if !entry.Detector? {
          return Fault(DetectorCastFault);
        }
        entry.detector.stopped := true;
      }
      return Handled(());
    }

    /** Stopping twice leaves the detector as stopping once does. */
    method StopCheckTwice() returns (first: Answer<()>, second: Answer<()>)
      modifies DetectorFrame(global.values)
      ensures first == second
      ensures StopCheckEffect(old(global.values), second)
    {
      first := StopCheck();
      second := StopCheck();
    }

    /** `Dtc.mmKVSaveValue(key, value)`: stores the value verbatim under the key. */
    method MmKVSaveValue(key: string, value: string)
      modifies global
      ensures global.values == old(global.values)[key := Str(value)]
    {
      global.Put(key, Str(value));
    }

    method CallStaticVoidMethodV(signature: string, args: seq<Arg>) returns (r: Answer<()>)
      modifies global, DetectorFrame(global.values)
      ensures signature == StopCheckSig ==>
        global.values == old(global.values) && StopCheckEffect(old(global.values), r)
      ensures signature == MmKVSaveSig && HasStr(args, 0) && HasStr(args, 1) ==>
        r == Handled(()) && global.values == old(global.values)[args[0].str := Str(args[1].str)]
        && unchanged(DetectorFrame(old(global.values)))
      ensures signature == MmKVSaveSig && !(HasStr(args, 0) && HasStr(args, 1)) ==>
        r.Fault? && unchanged(global) && unchanged(DetectorFrame(old(global.values)))
      ensures signature == SaveListSig ==>
        r == Handled(()) && unchanged(global) && unchanged(DetectorFrame(old(global.values)))
      ensures signature !in StaticVoidSigs ==>
        r == Unhandled && unchanged(global) && unchanged(DetectorFrame(old(global.values)))
      ensures r.Fault? ==> unchanged(global) && unchanged(DetectorFrame(old(global.values)))
    {
      if signature == StopCheckSig {
        r := StopCheck();
        return;
      }
      if signature == MmKVSaveSig {
        if !HasStr(args, 0) || !HasStr(args, 1) {
          return Fault("mmKVSaveValue arguments are not strings");
        }
        MmKVSaveValue(args[0].str, args[1].str);
        return Handled(());
      }
      if signature == SaveListSig {
        return Handled(());
      }
      return Unhandled;
    }

    /** A switch value the guest saves is what it reads back through either
      switch key. */
    method SaveThenReadSwitch(v: string, key: string, vol: Volatile) returns (r: Answer<JObject>)
      requires ValidVolatile(vol)
      requires key == "o3_switch_Xwid" || key == "o3_xwid_switch"
      modifies global
      ensures r == Handled(JString(v))
    {
      MmKVSaveValue(O3SwitchKey, v);
      r := CallStaticObjectMethodV(MmKVValueSig, [StrArg(key)], vol);
    }

    // -------------------------------------------------------------------------
    // QSec->getEstInfo

    method GetEstInfo() returns (r: string)
      ensures r == "e_null" <==> !HasEstData(global.values)
      ensures HasEstData(global.values) ==> r == Base64.Encode(global.values[EstDataKey].bytes)
      ensures HasEstData(global.values) ==> Base64.Decode(r) == Some(global.values[EstDataKey].bytes)
    {
      var est := if EstDataKey in global.values then Some(global.values[EstDataKey]) else None;
      if est.None? || !est.value.Bytes? {
        return "e_null";
      }
      return EstInfo(global.values);
    }

    /** `callObjectMethodV`. `receiver` is the object the method is called on
        and `receiverText` its `toString()`. */
    method CallObjectMethodV(signature: string, args: seq<Arg>, receiver: JObject, receiverText: string)
      returns (r: Answer<JObject>)
      ensures signature == AppInfoSig ==> r == Handled(JHandle("android/content/pm/ApplicationInfo"))
      ensures signature == FilesDirSig ==> r == Handled(JFile("/data/user/0/" + env.packageName + "/files"))
      ensures signature == ContentResolverSig ==> r == Handled(JHandle("android/content/ContentResolver"))
      ensures signature == QueryIntentServicesSig ==> r == Handled(JList([]))
      ensures signature == AddCategorySig ==> r == Handled(receiver)
      ensures signature == FileResourcePathSig || signature == ContextResourcePathSig ==>
        r == Handled(JString(host.appInstallFolder(env.packageName) + "/base.apk"))
      ensures signature == PackageNameSig ==> r == Handled(JString(env.packageName))
      ensures signature == LoadClassSig ==> if HasStr(args, 0) then r == Handled(JHandle("java/lang/Class")) else r.Fault?
      ensures signature == StackTraceSig ==> r == Handled(JArray([]))
      ensures signature == GetEstInfoSig ==> r.Handled? && r.value.JString?
      ensures signature == GetEstInfoSig ==> (r.value.str == "e_null" <==> !HasEstData(global.values))
      ensures signature == GetEstInfoSig && HasEstData(global.values) ==>
        r.value.str == Base64.Encode(global.values[EstDataKey].bytes)
      ensures signature == GetEstInfoSig && HasEstData(global.values) ==>
        Base64.Decode(r.value.str) == Some(global.values[EstDataKey].bytes)
      ensures signature == ExternalFilesDirSig ==> r == Handled(JFile("/mnt/sdcard"))
      ensures signature == ContextToStringSig ==> r == Handled(JString(receiverText))
      ensures signature !in ObjectMethodSigs ==> r == Unhandled
    {
      ContextGettersDistinct();
      if signature == AppInfoSig {
        return Handled(JHandle("android/content/pm/ApplicationInfo"));
      }
      if signature == FilesDirSig {
        return Handled(JFile("/data/user/0/" + env.packageName + "/files"));
      }
      if signature == ContentResolverSig {
        return Handled(JHandle("android/content/ContentResolver"));
      }
      if signature == QueryIntentServicesSig {
        return Handled(JList([]));
      }
      if signature == AddCategorySig {
        return Handled(receiver);
      }
      if signature == FileResourcePathSig || signature == ContextResourcePathSig {
        return Handled(JString(host.appInstallFolder(env.packageName) + "/base.apk"));
      }
      if signature == PackageNameSig {
        return Handled(JString(env.packageName));
      }
      if signature == LoadClassSig {
        if !HasStr(args, 0) {
          return Fault("loadClass argument is not a string");
        }
        return Handled(JHandle("java/lang/Class"));
      }
      if signature == StackTraceSig {
        return Handled(JArray([]));
      }
      if signature == GetEstInfoSig {
        var info := GetEstInfo();
        return Handled(JString(info));
      }
      if signature == ExternalFilesDirSig {
        return Handled(JFile("/mnt/sdcard"));
      }
      if signature == ContextToStringSig {
        return Handled(JString(receiverText));
      }
      return Unhandled;
    }

    // -------------------------------------------------------------------------
    // Interception policy

    /** `acceptMethod`: refuses `QsecEst->p` and `QSecFramework->goingUp` when the
        emulated package is com.tencent.mobileqq; otherwise the base decision. */
    method AcceptMethod(signature: string, isStatic: bool, base: bool) returns (r: bool)
      ensures (signature == QsecEstPSig || signature == GoingUpSig) && env.packageName == MobileQQ ==> !r
      ensures !((signature == QsecEstPSig || signature == GoingUpSig) && env.packageName == MobileQQ) ==> r == base
    {
      if signature == QsecEstPSig && env.packageName == MobileQQ {
        return false;
      }
      if signature == GoingUpSig && env.packageName == MobileQQ {
        return false;
      }
      return base;
    }

    // -------------------------------------------------------------------------
    // File.canRead

    /** `callBooleanMethodV` for `File.canRead`. `path` is the receiver's
        `File.toString()`, the path as `java.io.File` has normalized it; the
        model takes that text as given. */
    method CallBooleanMethodV(signature: string, path: string) returns (r: Answer<bool>)
      ensures signature == CanReadSig && CanReadRefused(env, path) ==> r == Handled(false)
      ensures !(signature == CanReadSig && CanReadRefused(env, path)) ==> r == Unhandled
    {
      if signature == CanReadSig {
        if path == "\\data\\data\\" + env.packageName + "\\.."
          || path == "/data/data/" + env.packageName + "/.."
          || path == "/data/data/"
          || path == "/data/data"
        {
          return Handled(false);
        }
      }
      return Unhandled;
    }
  }

  /** The `QsecEst->p` that `acceptMethod` refuses under com.tencent.mobileqq
      has the shape of the `QsecEst` information getters, so the refusal
      withholds a call that `callStaticObjectMethodV` would answer from the
      information table. */
  lemma QsecEstPIsInformationGetter()
    ensures IsQsecEstSig(QsecEstPSig)
  {
    var s := QsecEstPSig;
    assert s[..|QsecEstPrefix|] == QsecEstPrefix;
    assert s[|s| - |QsecEstSuffix|..] == QsecEstSuffix;
  }

  /** The `s->c` and `s->d` tests come after the `QsecEst` test, which they never match. */
  lemma SecProtocolIsNotQsecEst(signature: string)
    requires signature in {SecCSig, SecDSig}
    ensures !IsQsecEstSig(signature)
  {
    assert signature[12] == 's';
    assert QsecEstPrefix[12] == 'm';
  }

  /** `s->c` and `s->d` differ in the method letter after the shared class prefix. */
  lemma SecGettersDistinct()
    ensures SecCSig != SecDSig
  {
    assert SecCSig[|SecProtocolClass|] == 'c';
    assert SecDSig[|SecProtocolClass|] == 'd';
  }

  /** `getContentResolver` and `getExternalFilesDir` have signatures of the
      same length; they differ in the first letter after `get`. */
  lemma ContextGettersDistinct()
    ensures ContentResolverSig != ExternalFilesDirSig
  {
    assert ContentResolverSig[|ContextClass| + 3] == 'C';
    assert ExternalFilesDirSig[|ContextClass| + 3] == 'E';
  }
}
