# QSign environment emulation and TLV 0x544 provider, in Dafny

This project models two parts of a signing service for the QQ protocol.

`QSecJni` is the JNI environment that the emulated Android signing library
(run under unidbg) calls back into. Every call arrives as a signature string
such as `com/tencent/mobileqq/dt/app/Dtc->getPropSafe(Ljava/lang/String;)Ljava/lang/String;`.
Each override compares the signature with the strings it knows, in order,
and answers the first match. Anything else goes to the base class of the
emulator. The model has three layers:

- **Pure tables** (`DeviceFacts`, `JavaString`, `Base64`, `UnidbgEnv.MmKVValue`,
  `UnidbgEnv.EstInfo`): build properties, system properties, app version,
  screen size, the `QsecEst` information ids, the version-locked `s->e`
  constant, the `canRead` blacklist, `String.hashCode` and the base 64 text
  of `est_data`.
- **Session state** (`Session`): the shared `global` map is a class
  `GlobalData` whose `values: map<string, Value>` the handlers reassign. The
  packet list (`PACKET`), the lock (`mutex`) and the deep-sleep detector are
  objects held in that map and updated in place, as in the source.
- **Dispatch** (`UnidbgEnv.QSecJni`): one method per overridden JNI entry
  point. Each promises, signature by signature, what is answered, what
  state changes, and that unknown signatures are `Unhandled`.

A call's outcome is an `Answer`. `Handled(v)` is a value returned to the
guest. `Unhandled` is the fall-through to `super`. `Fault(m)` is an exception:
a Kotlin `error(...)`, or a failed `as` cast on a `global` entry or on an
argument.

`TLV544Provider` (`Tlv544`) is the encrypt service that answers TLV type
0x544 with a native `sign` function. Its companion object picks the native
library `t544-enc-<os>-<arch>` for the host platform.

Clock, file-time and random values enter each call as a `Volatile` record.
`ValidVolatile` states their ranges. Host helpers whose code is not part of
this model are function-typed fields of `Host`: `toHexString`,
`DeepSleepDetector.getCheckResult` (seen through its `stopped` flag),
`FEBound.transform` and `FileResolver.getAppInstallFolder`. The native `sign` is a function parameter.

Behaviour of the code worth noting:

- `ro.build.description` is a fixed string (QSecJni.kt:234). It names build
  `TKQ1.220905.001` and Android 12, whatever the configuration and whatever
  `ro.build.id` says (`TKQ1.221013.002`). See `DeviceFacts.BuildDescriptionIsFixed`.
- `mmKVValue` fails for a key outside its catalog (QSecJni.kt:176). It does
  not fall back to "-1".
- `mmKVSaveValue` followed by `mmKVValue` reads back through two paths only.
  The o3 switch keys read what was saved under `o3_switch_Xwid`.
  `DeviceToken-qimei36-V001` reads what was saved under `qimei36`, not under
  its own name (`UnidbgEnv.MmKVQimeiSource`). Every other catalog key ignores
  the map.
- `getCheckResult` casts the `DeepSleepDetector` entry and throws when there
  is none. This file never creates the detector.
- The build table says `persist.sys.timezone` is `Asia/Shanghai`. The system
  property table answers "-1" for the same key (`DeviceFacts.TimezoneTablesDiffer`).
- `acceptMethod` hands every other signature to the base decision. It does
  not return `true`.

## Model

| member | source | states |
|---|---|---|
| DeviceFacts.GetPropSafe | src/main/kotlin/moe/fuqiuluo/unidbg/env/QSecJni.kt:202-244 | a key outside the catalog reads "-1"; every catalog key other than the release and SDK entries reads something other than "-1"; the release is the configured Android version; the SDK entry parses back to the configured SDK level |
| DeviceFacts.BuildPropertiesAgree | src/main/kotlin/moe/fuqiuluo/unidbg/env/QSecJni.kt:205-218 | the display id is the build id, a space and the build keys; device and product name agree; each `ro.system.product.cpu.abilist*` equals its `ro.product.cpu.abilist*` |
| DeviceFacts.BuildDescriptionIsFixed | src/main/kotlin/moe/fuqiuluo/unidbg/env/QSecJni.kt:205-234 | the build description is the same for every configuration and names build TKQ1.220905.001, which is not the build id TKQ1.221013.002; the release follows the configuration |
| DeviceFacts.SystemGetSafe | src/main/kotlin/moe/fuqiuluo/unidbg/env/QSecJni.kt:284-303 | a key outside the table reads "-1"; the temp dir is the package's cache directory; the HTTP agent carries the configured Android version and the build id of the property table |
| DeviceFacts.TimezoneTablesDiffer | src/main/kotlin/moe/fuqiuluo/unidbg/env/QSecJni.kt:294 | the system property `persist.sys.timezone` reads like an unknown key, while the build property reads Asia/Shanghai |
| DeviceFacts.AppVersionName | src/main/kotlin/moe/fuqiuluo/unidbg/env/QSecJni.kt:245-255 | "empty" gives the configured version; every other key gives "-1" |
| DeviceFacts.AppVersionCode | src/main/kotlin/moe/fuqiuluo/unidbg/env/QSecJni.kt:256-266 | "empty" gives the configured version code; every other key gives "-1" |
| DeviceFacts.ScreenSize | src/main/kotlin/moe/fuqiuluo/unidbg/env/QSecJni.kt:278-280 | the answer is bracketed |
| DeviceFacts.ScreenSizeRoundTrip | src/main/kotlin/moe/fuqiuluo/unidbg/env/QSecJni.kt:278-280 | parsing "[w,h]" gives back the configured width and height |
| DeviceFacts.Token | src/main/kotlin/moe/fuqiuluo/unidbg/env/QSecJni.kt:349-357 | the token has 32 characters, each from the 62-character alphanumeric alphabet |
| DeviceFacts.BuildToken | src/main/kotlin/moe/fuqiuluo/unidbg/env/QSecJni.kt:349-357 | the `StringBuilder` loop builds exactly the token its 32 draws spell |
| DeviceFacts.SignatureMd5 | src/main/kotlin/moe/fuqiuluo/unidbg/env/QSecJni.kt:319 | the certificate MD5 has 32 characters and no lower-case letter |
| DeviceFacts.QsecEstInfo | src/main/kotlin/moe/fuqiuluo/unidbg/env/QSecJni.kt:312-366 | unlisted ids and ids 90..105 give "0"; ids 28 and 43 give the package name; id 0 parses back to the SDK level; id 75 parses to a value in 0..500000; id 86 is the token its 32 draws spell; id 89 parses back to the clock; id 26 is the certificate MD5; ids 51 and 52 are the version and version code |
| DeviceFacts.SecProtocolE | src/main/kotlin/moe/fuqiuluo/unidbg/env/QSecJni.kt:380-389 | 345546704 for version 3.5.1, 345971138 for 3.5.2, an error for every other version |
| DeviceFacts.CanReadRefusedOwnPackage | src/main/kotlin/moe/fuqiuluo/unidbg/env/QSecJni.kt:538-548 | the parent of the configured package's data directory is refused and that of any other package is not |
| Common.IntToDecimal | src/main/kotlin/moe/fuqiuluo/unidbg/env/QSecJni.kt:221 | `Int.toString()`: digits, with a leading minus sign exactly for negative numbers, and no leading zero |
| Common.DecimalRoundTrip | src/main/kotlin/moe/fuqiuluo/unidbg/env/QSecJni.kt:221 | reading back the decimal text of any integer gives that integer |
| Common.AsciiLowercase | src/main/kotlin/moe/fuqiuluo/unidbg/env/QSecJni.kt:183 | same length; each upper-case ASCII letter becomes its lower-case form, every other character is unchanged, and no upper-case letter remains |
| Common.AsciiUppercase | src/main/kotlin/moe/fuqiuluo/unidbg/env/QSecJni.kt:319 | same length; each lower-case ASCII letter becomes its upper-case form, every other character is unchanged, and no lower-case letter remains |
| JavaString.StringHashCode | src/main/kotlin/moe/fuqiuluo/unidbg/env/QSecJni.kt:150-155 | the hash is the 32-bit wrap of s[0]*31^(n-1) + ... + s[n-1] over the UTF-16 code units |
| JavaString.HashCodeIsPolynomial | src/main/kotlin/moe/fuqiuluo/unidbg/env/QSecJni.kt:152 | the JDK's wrapping loop `h = 31*h + c` equals the documented polynomial modulo 2^32 |
| JavaString.Utf16 | src/main/kotlin/moe/fuqiuluo/unidbg/env/QSecJni.kt:152 | a string has between n and 2n UTF-16 code units, each below 0x10000 |
| Base64.Encode | src/main/kotlin/moe/fuqiuluo/unidbg/env/QSecJni.kt:481 | four characters for every started group of three bytes |
| Base64.DecodeEncode | src/main/kotlin/moe/fuqiuluo/unidbg/env/QSecJni.kt:481 | decoding the encoding of any byte string gives it back |
| Base64.EncodeDecode | src/main/kotlin/moe/fuqiuluo/unidbg/env/QSecJni.kt:481 | text that decodes is the encoding of its bytes, so each byte string has exactly one text |
| UnidbgEnv.MmKVValue | src/main/kotlin/moe/fuqiuluo/unidbg/env/QSecJni.kt:163-179 | an answer exists exactly for catalog keys; the switch keys read `o3_switch_Xwid` with default "1"; the qimei36 key reads `qimei36` with default ""; the UUID key is the drawn UUID, a bar and the version |
| UnidbgEnv.MmKVSwitchRoundTrip | src/main/kotlin/moe/fuqiuluo/unidbg/env/QSecJni.kt:167 | a value stored under `o3_switch_Xwid` is what both switch keys read; before that they read "1" |
| UnidbgEnv.MmKVQimeiSource | src/main/kotlin/moe/fuqiuluo/unidbg/env/QSecJni.kt:171 | the qimei36 key reads the session entry `qimei36`; storing under the key the guest asks for changes nothing |
| UnidbgEnv.EstInfo | src/main/kotlin/moe/fuqiuluo/unidbg/env/QSecJni.kt:475-484 | "e_null" exactly when no byte array is stored under `est_data`; otherwise the RFC 4648 text of the stored bytes, which decodes back to them |
| UnidbgEnv.EstInfoIsTheOnlyText | src/main/kotlin/moe/fuqiuluo/unidbg/env/QSecJni.kt:481 | any text that decodes to the stored bytes is the answer itself |
| UnidbgEnv.QsecEstPIsInformationGetter | src/main/kotlin/moe/fuqiuluo/unidbg/env/QSecJni.kt:495 | the refused `QsecEst->p` signature has the shape of the information getters |
| UnidbgEnv.SecProtocolIsNotQsecEst | src/main/kotlin/moe/fuqiuluo/unidbg/env/QSecJni.kt:369-375 | the `s->c` and `s->d` signatures never match the `QsecEst` test placed before them |
| UnidbgEnv.QSecJni.GetStaticIntField | src/main/kotlin/moe/fuqiuluo/unidbg/env/QSecJni.kt:45-50 | `SDK_INT` is the configured SDK level; other fields are unhandled |
| UnidbgEnv.QSecJni.GetIntField | src/main/kotlin/moe/fuqiuluo/unidbg/env/QSecJni.kt:52-57 | `targetSdkVersion` is the configured target; other fields are unhandled |
| UnidbgEnv.QSecJni.SendMessage | src/main/kotlin/moe/fuqiuluo/unidbg/env/QSecJni.kt:72-84 | id -1 changes nothing; otherwise exactly one packet (command, hex of data, id) is appended, then the lock is released; a missing list or lock throws at that step |
| UnidbgEnv.QSecJni.SendTwice | src/main/kotlin/moe/fuqiuluo/unidbg/env/QSecJni.kt:72-84 | two sends queue their packets in order after the earlier ones and leave the lock released |
| UnidbgEnv.QSecJni.SendUncorrelated | src/main/kotlin/moe/fuqiuluo/unidbg/env/QSecJni.kt:72-78 | a packet with id -1 leaves the queue and the lock untouched |
| UnidbgEnv.QSecJni.UpdateO3DID | src/main/kotlin/moe/fuqiuluo/unidbg/env/QSecJni.kt:86-90 | the id is stored under `o3did` and no other key changes |
| UnidbgEnv.QSecJni.CallVoidMethodV | src/main/kotlin/moe/fuqiuluo/unidbg/env/QSecJni.kt:59-97 | routes `sendMessage` and `updateO3DID` to their effects; logging and `putUping` change nothing; a missing or wrong-kind argument of `sendMessage`, `updateO3DID` or the log calls throws before any state changes; unknown signatures are unhandled and change nothing |
| UnidbgEnv.QSecJni.GetStaticObjectField | src/main/kotlin/moe/fuqiuluo/unidbg/env/QSecJni.kt:99-119 | `business_uin` is the `uin` string or a failed cast; seed, guid, o3did and q36 read their keys with default ""; qua is configured |
| UnidbgEnv.QSecJni.UpdateThenReadO3did | src/main/kotlin/moe/fuqiuluo/unidbg/env/QSecJni.kt:86-110 | after `updateO3DID(s)` the field `business_o3did` reads `s` |
| UnidbgEnv.QSecJni.CallIntMethodV | src/main/kotlin/moe/fuqiuluo/unidbg/env/QSecJni.kt:150-155 | `String.hashCode` is the Java SE hash of the receiver; other methods are unhandled |
| UnidbgEnv.QSecJni.CallStaticObjectMethodV | src/main/kotlin/moe/fuqiuluo/unidbg/env/QSecJni.kt:157-378 | each signature gets the answer of its run of tests; a signature that is neither listed nor a `QsecEst` getter is unhandled |
| UnidbgEnv.QSecJni.SessionObjectMethod | src/main/kotlin/moe/fuqiuluo/unidbg/env/QSecJni.kt:163-201 | `mmKVValue` answers from its table or throws; `android_id` is lower-cased and other settings fall through; `getCheckResult` needs a detector entry; `FEBound.transform` and the class loader are handed back; a missing or wrong-kind argument of `Settings.System.getString` or `FEBound.transform` throws |
| UnidbgEnv.QSecJni.DeviceObjectMethod | src/main/kotlin/moe/fuqiuluo/unidbg/env/QSecJni.kt:202-306 | each `Dtc` getter answers from its table or configuration; a keyed getter without a string key throws |
| UnidbgEnv.QSecJni.ProtocolObjectMethod | src/main/kotlin/moe/fuqiuluo/unidbg/env/QSecJni.kt:308-376 | a `QsecEst` getter answers the information table for its id; `s->c` is the package and `s->d` the certificate MD5; anything else is unhandled |
| UnidbgEnv.QSecJni.CallStaticIntMethodV | src/main/kotlin/moe/fuqiuluo/unidbg/env/QSecJni.kt:380-389 | `s->e` answers exactly for versions 3.5.1 and 3.5.2 and throws otherwise |
| UnidbgEnv.QSecJni.StopCheck | src/main/kotlin/moe/fuqiuluo/unidbg/env/QSecJni.kt:392-397 | an existing detector is marked stopped; with no entry nothing changes and none is created; an entry of another type fails the cast |
| UnidbgEnv.QSecJni.StopCheckTwice | src/main/kotlin/moe/fuqiuluo/unidbg/env/QSecJni.kt:392-397 | a second `stopCheck` answers as the first and leaves the same state |
| UnidbgEnv.QSecJni.MmKVSaveValue | src/main/kotlin/moe/fuqiuluo/unidbg/env/QSecJni.kt:398-403 | the value is stored verbatim under the key and no other key changes |
| UnidbgEnv.QSecJni.CallStaticVoidMethodV | src/main/kotlin/moe/fuqiuluo/unidbg/env/QSecJni.kt:391-409 | routes `stopCheck` and `mmKVSaveValue` to their effects; `mmKVSaveValue` without two string arguments throws before any state changes; `saveList` and unknown signatures change nothing |
| UnidbgEnv.QSecJni.SaveThenReadSwitch | src/main/kotlin/moe/fuqiuluo/unidbg/env/QSecJni.kt:398-402 | a switch value saved through `mmKVSaveValue` is what `mmKVValue` returns for either switch key |
| UnidbgEnv.QSecJni.GetEstInfo | src/main/kotlin/moe/fuqiuluo/unidbg/env/QSecJni.kt:475-484 | "e_null" exactly without stored bytes; otherwise the RFC 4648 text of them, which decodes back to them |
| UnidbgEnv.QSecJni.CallObjectMethodV | src/main/kotlin/moe/fuqiuluo/unidbg/env/QSecJni.kt:410-492 | the application info, content resolver and `java/lang/Class` answers are objects of those classes; the files directory is `/data/user/0/<package>/files` and the external one `/mnt/sdcard`; both resource paths are the install folder's `base.apk`; the package name is the configured one; `addCategory` returns its receiver and `toString` the receiver's text; `queryIntentServices` and `getStackTrace` are empty; `loadClass` without a string name throws; `getEstInfo` is answered as above; any other signature is unhandled |
| UnidbgEnv.ContextGettersDistinct | src/main/kotlin/moe/fuqiuluo/unidbg/env/QSecJni.kt:435-487 | `getContentResolver` and `getExternalFilesDir`, the two `Context` getters of equal length, are different signatures |
| UnidbgEnv.QSecJni.AcceptMethod | src/main/kotlin/moe/fuqiuluo/unidbg/env/QSecJni.kt:494-507 | refused exactly for `QsecEst->p` and `QSecFramework->goingUp` under com.tencent.mobileqq; otherwise the base decision unchanged |
| UnidbgEnv.QSecJni.CallBooleanMethodV | src/main/kotlin/moe/fuqiuluo/unidbg/env/QSecJni.kt:532-550 | `canRead` is false exactly for the four refused paths; everything else is unhandled |
| Session.GlobalData.Put | src/main/kotlin/moe/fuqiuluo/unidbg/env/QSecJni.kt:401 | `global[key] = value`: the key holds the value and no other key changes |
| Session.StringOr | src/main/kotlin/moe/fuqiuluo/unidbg/env/QSecJni.kt:104 | `as? String ?: default`: the string stored under the key, else the default |
| Session.StringAt | src/main/kotlin/moe/fuqiuluo/unidbg/env/QSecJni.kt:101 | `as String`: succeeds exactly when a string is stored under the key |
| Session.StringOrAfterPut | src/main/kotlin/moe/fuqiuluo/unidbg/env/QSecJni.kt:110 | a stored string reads back; reads of other keys are unaffected |
| Tlv544.CopyInto | src/main/kotlin/xyz/cssxsh/mirai/tool/TLV544Provider.kt:58 | succeeds exactly when the copied range fits both arrays; the target keeps its length; the range holds the source bytes and the rest is unchanged |
| Tlv544.SaltV2Buffer | src/main/kotlin/xyz/cssxsh/mirai/tool/TLV544Provider.kt:58 | exists exactly for payloads of at least four bytes; same length; bytes 0..3 are zero; from index 4 on it equals the payload |
| Tlv544.SaltV2BufferIgnoresHeader | src/main/kotlin/xyz/cssxsh/mirai/tool/TLV544Provider.kt:58 | payloads that differ only in their first four bytes give the same buffer |
| Tlv544.EncryptTlv | src/main/kotlin/xyz/cssxsh/mirai/tool/TLV544Provider.kt:49-66 | a type other than 0x544 gives null without calling `sign`; for 0x544 the result is `sign` of the original payload; a SALT_V2 command signs the zero-prefixed buffer first and throws for payloads under four bytes; any other command signs the payload twice |
| Tlv544.EncryptTlvIgnoresCommand | src/main/kotlin/xyz/cssxsh/mirai/tool/TLV544Provider.kt:55-65 | the returned value does not depend on the command |
| Tlv544.OsTag | src/main/kotlin/xyz/cssxsh/mirai/tool/TLV544Provider.kt:20-28 | Mac OS X is macos; Linux is android under Termux and linux otherwise; Win* is windows; the Android vendor is android; anything else is an error |
| Tlv544.ArchTag | src/main/kotlin/xyz/cssxsh/mirai/tool/TLV544Provider.kt:29-34 | x86 is x86; x86_64 and amd64 are x64; aarch64 is arm64; anything else is an error |
| Tlv544.LibraryBaseName | src/main/kotlin/xyz/cssxsh/mirai/tool/TLV544Provider.kt:20-35 | "t544-enc-" + os + "-" + arch when both are known; an unknown OS is reported before the architecture |
| Tlv544.LibraryBaseNameInjective | src/main/kotlin/xyz/cssxsh/mirai/tool/TLV544Provider.kt:35 | the library name determines the OS and architecture tags |
| Tlv544.OsTagNoDash | src/main/kotlin/xyz/cssxsh/mirai/tool/TLV544Provider.kt:35 | an OS tag never absorbs part of the architecture tag |

## Left out

- Logging (`logger.verbose`, `logger.warning`, `logger.info`) and the debug `println` in `acceptMethod`: output only.
- The unidbg object plumbing: `resolveClass`/`newObject`, `getObjectField`, `setObjectField` (the `SignResult` setters), `newObjectV`, `toReflectedMethod` and `callObjectMethod`. An object made by `newObject(null)` is a `JHandle` naming its class. `getSystemClassLoader` and `currentThread` are answered the same way.
- `UnidbgEnv.QSecJni.CallObjectMethodV`, `loadClass`: the cast `dvmObject.value as ClassLoader`, the host class lookup and the `ClassNotFoundException` it may raise in the guest are not modelled. A string name gives a `java/lang/Class` handle.
- `getFilesDir` rewires the superclasses of `Context` and `File` in the emulator's class table. The model answers a `JFile` with the path and leaves the class table out.
- `FileResolver.getAppInstallFolder`: its code is not part of this model. It is the host function `appInstallFolder`.
- `Context->toString`: `dvmObject.value.toString()` of an arbitrary host object is the parameter `receiverText`.
- Argument decoding from the `VaList`: an argument is an `Arg` value, and one of the wrong kind is a `Fault`. The exact exception is not modelled.
- `toHexString`, `DeepSleepDetector.getCheckResult`, `FEBound.transform` and `getRandomIntString`: their code is not part of this model. They are host functions or `Volatile` inputs.
- `UUID.randomUUID`, `Random`, `SecureRandom`, `System.currentTimeMillis` and the `config.json` modification time: they are `Volatile` inputs constrained by `ValidVolatile`.
- `SelfBase64.Encoder.RFC4648` is not part of this model. It is replaced by the base 64 encoding of section 4 of RFC 4648, with a decoder that accepts only canonical text (section 3.5 of RFC 4648) as partner.
- The coroutine `Mutex` hand-off and the consumer that drains `PACKET`: only the `locked` flag is modelled. Concurrency is out of scope.
- An `est_data` byte-array object whose value is null: the map has no such entry kind, so only "absent or not bytes" gives "e_null".
- Case mapping outside ASCII: `lowercase()`/`uppercase()` are modelled on ASCII letters only. Every string they meet here is ASCII.
- `ValidVolatile` bounds only the random sample and the token draws. The drawn UUID's format, the free memory figure and the random digit string are not constrained.
- The cast `dvmObject.value as File` in `callBooleanMethodV`: the receiver is taken to be a `File` and is given by its `toString()` text.
- The cast `dvmObject.value as String` in `callIntMethodV`: the receiver is taken to be a string.
- `JavaString.Utf16`: unpaired surrogates cannot occur in a Dafny `string`, so they are not modelled.
- The native `sign`, `System.mapLibraryName`, the `xyz.cssxsh.mirai.tool.t544` path override, the resource-to-file copy and `System.load`: a foreign call and file I/O. `sign` is a pure function parameter, so any internal state it keeps between calls is not modelled.
- `SALT_V1` and `SALT_V3` are declared but never consulted by `encryptTlv`; they appear only as constants.
- `DeviceFacts.SignatureMd5`: states length and case only, not the digits, because the solver cannot index into long string literals at an acceptable cost.
- `UnidbgEnv.QSecJni.SessionObjectMethod`: for `Settings.System.getString` with a key other than `android_id`, the source runs the remaining tests before reaching `super`; the model returns `Unhandled` at once, which is the same outcome.
