/** `TLV544Provider`: the encrypt service that answers TLV 0x544 with the
    native `sign`, and the choice of the native library for the host platform. */
module Tlv544 {
  import opened Common

  /** The TLV type this provider answers. */
  const T544: int := 0x544

  const SaltV1: set<string> := {"810_2", "810_7", "810_24", "810_25"}
  const SaltV2: set<string> := {"810_9", "810_a", "810_d", "810_f"}
  const SaltV3: set<string> := {"812_a"}

  /** `n` zero bytes: `ByteArray(n) { 0 }`. */
  function Zeros(n: nat): (z: seq<byte>)
    ensures |z| == n && forall i :: 0 <= i < n ==> z[i] == 0
  {
    seq(n, _ => 0)
  }

  /** Kotlin's `src.copyInto(dst, destinationOffset, startIndex)` with the
      default end index `src.size`: copies `src[start..]` into `dst` at
      `offset`. It throws (None) when the range leaves either array. */
  function CopyInto(src: seq<byte>, dst: seq<byte>, offset: nat, start: nat): (r: Option<seq<byte>>)
    ensures r.Some? <==> start <= |src| && offset + (|src| - start) <= |dst|
    ensures r.Some? ==> |r.value| == |dst|
    ensures r.Some? ==> forall i :: 0 <= i < |dst| ==>
      r.value[i] == if offset <= i < offset + (|src| - start) then src[start + i - offset] else dst[i]
  {
    if start <= |src| && offset + (|src| - start) <= |dst| then
      Some(dst[..offset] + src[start..] + dst[offset + (|src| - start)..])
    else None
  }

  /** The buffer the SALT_V2 branch signs: `payload.copyInto(ByteArray(payload.size) { 0 }, 4, 4)`.
      It exists exactly when the payload has at least four bytes. */
  function SaltV2Buffer(payload: seq<byte>): (r: Option<seq<byte>>)
    ensures r.Some? <==> |payload| >= 4
    ensures r.Some? ==> |r.value| == |payload|
    ensures r.Some? ==> forall i :: 0 <= i < 4 ==> r.value[i] == 0
    ensures r.Some? ==> forall i :: 4 <= i < |payload| ==> r.value[i] == payload[i]
  {
    CopyInto(payload, Zeros(|payload|), 4, 4)
  }

  /** The outcome of `encryptTlv`: the inputs handed to `sign`, in call order,
      and the value returned; or the exception that ended the call. */
  datatype Outcome =
    | Returned(signInputs: seq<seq<byte>>, result: Option<seq<byte>>)
    | Thrown(reason: string)

  /** `encryptTlv(context, tlvType, payload)`. `command` is the context's
      command string, absent when the context has none; `sign` is the native
      signer. */
  function EncryptTlv(tlvType: int, command: Option<string>, payload: seq<byte>, sign: seq<byte> -> seq<byte>)
    : (o: Outcome)
    ensures tlvType != T544 ==> o == Returned([], None)
    ensures tlvType == T544 && o.Returned? ==> o.result == Some(sign(payload))
    ensures tlvType == T544 && o.Returned? ==> |o.signInputs| == 2 && o.signInputs[1] == payload
    ensures o.Thrown? <==> tlvType == T544 && command.Some? && command.value in SaltV2 && |payload| < 4
    ensures tlvType == T544 && command.Some? && command.value in SaltV2 && |payload| >= 4 ==>
      o.Returned? && Some(o.signInputs[0]) == SaltV2Buffer(payload)
    ensures tlvType == T544 && !(command.Some? && command.value in SaltV2) ==>
      o == Returned([payload, payload], Some(sign(payload)))
  {
    if tlvType != T544 then Returned([], None)
    else if command.Some? && command.value in SaltV2 then
      match SaltV2Buffer(payload)
      case None => Thrown("copyInto: index out of bounds")
      case Some(buffer) => Returned([buffer, payload], Some(sign(payload)))
    else Returned([payload, payload], Some(sign(payload)))
  }

  /** Whatever the command and whatever `sign` returns for the salted buffer,
      an answered 0x544 request yields the signature of the original payload. */
  lemma EncryptTlvIgnoresCommand(command1: Option<string>, command2: Option<string>, payload: seq<byte>,
                                 sign: seq<byte> -> seq<byte>)
    requires EncryptTlv(T544, command1, payload, sign).Returned?
    requires EncryptTlv(T544, command2, payload, sign).Returned?
    ensures EncryptTlv(T544, command1, payload, sign).result == EncryptTlv(T544, command2, payload, sign).result
  {
  }

  /** The salted buffer is a fresh array: two payloads that differ only in
      their first four bytes give the same buffer. */
  lemma SaltV2BufferIgnoresHeader(p: seq<byte>, q: seq<byte>)
    requires |p| == |q| >= 4 && p[4..] == q[4..]
    ensures SaltV2Buffer(p) == SaltV2Buffer(q)
  {
    var bp, bq := SaltV2Buffer(p).value, SaltV2Buffer(q).value;
    forall i | 0 <= i < |p|
      ensures bp[i] == bq[i]
    {
      if i >= 4 {
        assert p[i] == p[4..][i - 4] && q[i] == q[4..][i - 4];
      }
    }
  }

  // ---------------------------------------------------------------------------
  // The native library for this platform

  const AndroidVendor: string := "The Android Project"

  /** The `os` part of the library name. `osName` is the `os.name` property,
      `termux` whether TERMUX_VERSION is set, `vendor` the
      `java.specification.vendor` property. A missing `os.name` fails like an
      unknown one. */
  function OsTag(osName: Option<string>, termux: bool, vendor: Option<string>): (r: Result<string>)
    ensures osName == Some("Mac OS X") ==> r == Ok("macos")
    ensures osName == Some("Linux") ==> r == Ok(if termux then "android" else "linux")
    ensures osName.Some? && osName.value != "Mac OS X" && osName.value != "Linux" && StartsWith(osName.value, "Win")
            ==> r == Ok("windows")
    ensures osName.Some? && osName.value !in {"Mac OS X", "Linux"} && !StartsWith(osName.value, "Win")
              && vendor == Some(AndroidVendor)
            ==> r == Ok("android")
    ensures r.Ok? <==> osName.Some? && (osName.value in {"Mac OS X", "Linux"}
                                         || StartsWith(osName.value, "Win") || vendor == Some(AndroidVendor))
    ensures r.Ok? ==> r.value in {"macos", "linux", "android", "windows"}
  {
    match osName
    case None => Err("Unknown OS null")
    case Some(name) =>
      if name == "Mac OS X" then Ok("macos")
      else if name == "Linux" then Ok(if termux then "android" else "linux")
      else if StartsWith(name, "Win") then Ok("windows")
      else if vendor == Some(AndroidVendor) then Ok("android")
      else Err("Unknown OS " + name)
  }

  /** The `arch` part of the library name, from the `os.arch` property. */
  function ArchTag(archName: Option<string>): (r: Result<string>)
    ensures r.Ok? <==> archName.Some? && archName.value in {"x86", "x86_64", "amd64", "aarch64"}
    ensures archName == Some("x86") ==> r == Ok("x86")
    ensures archName == Some("x86_64") || archName == Some("amd64") ==> r == Ok("x64")
    ensures archName == Some("aarch64") ==> r == Ok("arm64")
  {
    match archName
    case Some("x86") => Ok("x86")
    case Some("x86_64") | Some("amd64") => Ok("x64")
    case Some("aarch64") => Ok("arm64")
    case Some(name) => Err("Unknown arch " + name)
    case None => Err("Unknown arch null")
  }

  const LibraryPrefix: string := "t544-enc-"

  /** `"t544-enc-<os>-<arch>"`; the OS is decided first, so an unknown OS is
      reported even when the architecture is unknown too. */
  function LibraryBaseName(osName: Option<string>, termux: bool, vendor: Option<string>, archName: Option<string>)
    : (r: Result<string>)
    ensures OsTag(osName, termux, vendor).Err? ==> r == OsTag(osName, termux, vendor)
    ensures r.Ok? <==> OsTag(osName, termux, vendor).Ok? && ArchTag(archName).Ok?
    ensures r.Ok? ==> r.value == LibraryPrefix + OsTag(osName, termux, vendor).value + "-" + ArchTag(archName).value
  {
    match OsTag(osName, termux, vendor)
    case Err(m) => Err(m)
    case Ok(os) =>
      match ArchTag(archName)
      case Err(m) => Err(m)
      case Ok(arch) => Ok(LibraryPrefix + os + "-" + arch)
  }

  /** Distinct platforms load distinct libraries: the name determines both tags. */
  lemma LibraryBaseNameInjective(os1: string, arch1: string, os2: string, arch2: string)
    requires os1 in {"macos", "linux", "android", "windows"} && os2 in {"macos", "linux", "android", "windows"}
    requires LibraryPrefix + os1 + "-" + arch1 == LibraryPrefix + os2 + "-" + arch2
    ensures os1 == os2 && arch1 == arch2
  {
    var n1, n2 := LibraryPrefix + os1 + "-" + arch1, LibraryPrefix + os2 + "-" + arch2;
    assert n1[|LibraryPrefix|..] == os1 + "-" + arch1;
    assert n2[|LibraryPrefix|..] == os2 + "-" + arch2;
    OsTagNoDash(os1, arch1, os2, arch2);
  }

  /** The OS tags contain no '-', so the first '-' after the prefix ends the tag. */
  lemma OsTagNoDash(os1: string, arch1: string, os2: string, arch2: string)
    requires os1 in {"macos", "linux", "android", "windows"} && os2 in {"macos", "linux", "android", "windows"}
    requires os1 + "-" + arch1 == os2 + "-" + arch2
    ensures os1 == os2 && arch1 == arch2
  {
    var s1, s2 := os1 + "-" + arch1, os2 + "-" + arch2;
    assert |os1| == |os2| by {
      assert s1[4] == os1[4] && s2[4] == os2[4];
    }
    assert os1 == s1[..|os1|] && os2 == s2[..|os2|];
    assert arch1 == s1[|os1| + 1..] && arch2 == s2[|os2| + 1..];
  }
}
