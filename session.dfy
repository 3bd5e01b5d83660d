/** The per-session shared state (`GlobalData`): a map from string keys to
    dynamically typed values. Besides strings and byte arrays written by the
    guest or by setup, it holds three mutable objects that handlers update in
    place: the outgoing packet list (`PACKET`), the hand-off lock (`mutex`) and
    the deep-sleep detector (`DeepSleepDetector`). */
module Session {
  import opened Common

  const UinKey: string := "uin"
  const SeedKey: string := "seed"
  const GuidKey: string := "guid"
  const O3didKey: string := "o3did"
  const Qimei36Key: string := "qimei36"
  const O3SwitchKey: string := "o3_switch_Xwid"
  const EstDataKey: string := "est_data"
  const PacketKey: string := "PACKET"
  const MutexKey: string := "mutex"
  const DetectorKey: string := "DeepSleepDetector"

  /** One signed outgoing packet: command, payload in hex, correlation id. */
  datatype SsoPacket = SsoPacket(cmd: string, body: string, callbackId: int)

  /** The `ArrayList<SsoPacket>` that the packet consumer drains. */
  class PacketList {
    var items: seq<SsoPacket>

    constructor ()
      ensures items == []
    {
      items := [];
    }
  }

  /** The coroutine mutex the packet consumer waits on; only its state is modelled. */
  class Mutex {
    var locked: bool

    constructor (locked: bool)
      ensures this.locked == locked
    {
      this.locked := locked;
    }
  }

  /** The anti-detection timer; only its `stopped` flag is modelled. */
  class DeepSleepDetector {
    var stopped: bool

    constructor ()
      ensures !stopped
    {
      stopped := false;
    }
  }

  /** What a key of the session map can hold. */
  datatype Value =
    | Str(str: string)
    | Bytes(bytes: seq<byte>)
    | Packets(list: PacketList)
    | Lock(mutex: Mutex)
    | Detector(detector: DeepSleepDetector)
    | OtherObject

  class GlobalData {
    var values: map<string, Value>

    constructor ()
      ensures values == map[]
    {
      values := map[];
    }

    /** `global[key] = value`: that key now holds the value, no other key changes. */
    method Put(key: string, value: Value)
      modifies this
      ensures values == old(values)[key := value]
      ensures key in values && values[key] == value
      ensures forall k :: k != key ==> (k in values <==> k in old(values))
      ensures forall k :: k != key && k in values ==> values[k] == old(values)[k]
    {
      values := values[key := value];
    }
  }

  // ---------------------------------------------------------------------------
  // Typed reads of the map

  /** `global[key] as? String ?: default`: the default when the key is absent or
      holds something other than a string. */
  function StringOr(values: map<string, Value>, key: string, default: string): (r: string)
    ensures key in values && values[key].Str? ==> r == values[key].str
    ensures key !in values || !values[key].Str? ==> r == default
  {
    if key in values && values[key].Str? then values[key].str else default
  }

  /** `global[key] as String`: throws when the key is absent or not a string. */
  function StringAt(values: map<string, Value>, key: string): (r: Result<string>)
    ensures r.Ok? <==> key in values && values[key].Str?
    ensures r.Ok? ==> r.value == values[key].str
  {
    if key in values && values[key].Str? then Ok(values[key].str)
    else Err("cannot cast global[" + key + "] to String")
  }

  function PacketListOf(values: map<string, Value>): Option<PacketList> {
    if PacketKey in values && values[PacketKey].Packets? then Some(values[PacketKey].list) else None
  }

  function MutexOf(values: map<string, Value>): Option<Mutex> {
    if MutexKey in values && values[MutexKey].Lock? then Some(values[MutexKey].mutex) else None
  }

  function DetectorOf(values: map<string, Value>): Option<DeepSleepDetector> {
    if DetectorKey in values && values[DetectorKey].Detector? then Some(values[DetectorKey].detector) else None
  }

  /** The objects `sendMessage` may update. */
  function PacketFrame(values: map<string, Value>): set<object> {
    (if PacketListOf(values).Some? then {PacketListOf(values).value as object} else {})
    + (if MutexOf(values).Some? then {MutexOf(values).value as object} else {})
  }

  /** The objects `stopCheck` may update. */
  function DetectorFrame(values: map<string, Value>): set<object> {
    if DetectorOf(values).Some? then {DetectorOf(values).value as object} else {}
  }

  /** Writing a string under a key and reading that key back with a default
      gives the string; reads of other keys are unaffected. */
  lemma StringOrAfterPut(values: map<string, Value>, key: string, s: string, other: string, default: string)
    ensures StringOr(values[key := Str(s)], key, default) == s
    ensures other != key ==> StringOr(values[key := Str(s)], other, default) == StringOr(values, other, default)
  {
  }
}
