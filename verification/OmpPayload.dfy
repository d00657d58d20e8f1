/** The launch payload: what the fresh-call launcher puts on the one argv flag and what the unit decodes. */
module OmpPayload {
  import opened JsonValues
  import opened Options
  import opened ScriptText

  const VERSION := 1.0
  const TASK_MAX_CHARS := 16000
  const NONCE_PREFIX := "mux-fresh-call-"

  datatype Payload = Payload(target: string, nonce: string, task: string)

  datatype RejectReason =
    | FlagAbsent
    | FlagNotString
    | PayloadNotJson
    | PayloadNotObject
    | VersionUnsupported
    | PayloadUnknownKey
    | TargetInvalid
    | NonceInvalid
    | TaskEmpty
    | TaskTooLong

  datatype DecodeResult = Decoded(payload: Payload) | Rejected(reason: RejectReason)

  /** What `getFlag` returned: nothing, a boolean or an empty string, or a text with its JSON.parse outcome. */
  datatype FlagValue = NoFlag | NotText | Text(parsed: Option<Json>)

  /** `YYYYMMDDTHHMMSS-[0-9a-f]{6}` */
  predicate IsGardenId(s: string) {
    && |s| == 22
    && AllDigits(s[..8]) && s[8] == 'T' && AllDigits(s[9..15]) && s[15] == '-' && AllLowerHex(s[16..])
  }

  predicate IsNonce(s: string) {
    |s| == |NONCE_PREFIX| + 24 && s[..|NONCE_PREFIX|] == NONCE_PREFIX && AllLowerHex(s[|NONCE_PREFIX|..])
  }

  const WIRE_KEYS: set<string> := {"v", "target", "nonce", "task"}

  function Decode(flag: FlagValue): DecodeResult {
    match flag
    case NoFlag => Rejected(FlagAbsent)
    case NotText => Rejected(FlagNotString)
    case Text(None) => Rejected(PayloadNotJson)
    case Text(Some(json)) =>
      if !json.Obj? then Rejected(PayloadNotObject)
      else DecodeMembers(json.members)
  }

  function DecodeMembers(m: map<string, Json>): DecodeResult {
    var target := TextMember(m, "target");
    var nonce := TextMember(m, "nonce");
    var task := TextMember(m, "task");
    if Member(m, "v") != Some(Num(VERSION)) then Rejected(VersionUnsupported)
    else if !(m.Keys <= WIRE_KEYS) then Rejected(PayloadUnknownKey)
    else if target.None? || !IsGardenId(target.value) then Rejected(TargetInvalid)
    else if nonce.None? || !IsNonce(nonce.value) then Rejected(NonceInvalid)
    else if task.None? || Trim(task.value) == "" then Rejected(TaskEmpty)
    else if Length16(task.value) > TASK_MAX_CHARS then Rejected(TaskTooLong)
    else Decoded(Payload(target.value, nonce.value, task.value))
  }

  /** The wire object the launcher serialises. */
  function Build(p: Payload): Json {
    Obj(map["v" := Num(VERSION), "target" := Str(p.target), "nonce" := Str(p.nonce), "task" := Str(p.task)])
  }

  /** A garden id is a day, a time and six hexadecimal digits: `YYYYMMDDTHHMMSS-[0-9a-f]{6}`. */
  lemma GardenIdExactly(s: string)
    ensures IsGardenId(s) <==> exists day, time, suffix :: StampedId(s, day, time, suffix)
  {
    if IsGardenId(s) {
      assert s == s[..8] + "T" + s[9..15] + "-" + s[16..];
      assert StampedId(s, s[..8], s[9..15], s[16..]);
    }
    if day, time, suffix :| StampedId(s, day, time, suffix) {
      assert s[..8] == day && s[8] == 'T' && s[9..15] == time && s[15] == '-' && s[16..] == suffix;
      assert forall c <- day :: c in day + time;
      assert forall c <- time :: c in day + time;
    }
  }

  ghost predicate StampedId(s: string, day: string, time: string, suffix: string) {
    && s == day + "T" + time + "-" + suffix && |day| == 8 && |time| == 6 && |suffix| == 6
    && (forall c <- day + time :: c in "0123456789") && forall c <- suffix :: c in "0123456789abcdef"
  }

  /** The nonces the decoder takes are exactly those the launcher mints: its prefix and twelve bytes in hexadecimal. */
  lemma NonceExactly(nonce: string)
    ensures IsNonce(nonce) <==> exists bytes: seq<Byte> :: |bytes| == 12 && nonce == Mint(bytes)
  {
    if IsNonce(nonce) {
      var hex := nonce[|NONCE_PREFIX|..];
      HexReads(hex);
      var bytes :| |bytes| * 2 == |hex| && HexOf(bytes) == hex;
      assert nonce == Mint(bytes);
    }
    if bytes: seq<Byte> :| |bytes| == 12 && nonce == Mint(bytes) {
      HexIsHex(bytes);
      assert nonce[..15] == "mux-fresh-call-" && nonce[15..] == HexOf(bytes);
    }
  }

  type Byte = n: nat | n < 256

  /** `mintNonce`, given its random bytes. */
  function Mint(bytes: seq<Byte>): string { "mux-fresh-call-" + HexOf(bytes) }

  const HEX := "0123456789abcdef"

  function HexOf(bytes: seq<Byte>): string {
    if bytes == [] then "" else [HEX[bytes[0] / 16], HEX[bytes[0] % 16]] + HexOf(bytes[1..])
  }

  lemma {:induction false} HexIsHex(bytes: seq<Byte>)
    ensures |HexOf(bytes)| == 2 * |bytes| && AllLowerHex(HexOf(bytes))
  {
    if bytes != [] {
      HexIsHex(bytes[1..]);
    }
  }

  lemma HexDigitAt(c: char) returns (d: nat)
    requires IsLowerHex(c)
    ensures d < 16 && HEX[d] == c
  {
    d := if IsDigit(c) then c as int - '0' as int else c as int - 'a' as int + 10;
  }

  lemma {:induction false} HexReads(hex: string)
    requires |hex| % 2 == 0 && AllLowerHex(hex)
    ensures exists bytes: seq<Byte> :: |bytes| * 2 == |hex| && HexOf(bytes) == hex
  {
    if hex == "" {
      assert HexOf([]) == hex;
    } else {
      HexReads(hex[2..]);
      var rest :| |rest| * 2 == |hex[2..]| && HexOf(rest) == hex[2..];
      var high := HexDigitAt(hex[0]);
      var low := HexDigitAt(hex[1]);
      var bytes := [16 * high + low] + rest;
      assert bytes[1..] == rest && bytes[0] / 16 == high && bytes[0] % 16 == low;
      assert HexOf(bytes) == [hex[0], hex[1]] + hex[2..];
    }
  }

  /** What a caller of the launcher may legitimately ask for. */
  predicate Usable(p: Payload) {
    IsGardenId(p.target) && IsNonce(p.nonce) && Trim(p.task) != "" && Length16(p.task) <= TASK_MAX_CHARS
  }

  /** The launcher trims the task and refuses an empty or over-long one before it builds the wire object. */
  function Compose(caller: string, nonce: string, task: string): Option<Payload> {
    var trimmed := Trim(task);
    if caller == "" || trimmed == "" || Length16(trimmed) > TASK_MAX_CHARS then None
    else Some(Payload(caller, nonce, trimmed))
  }

  lemma BuiltMembers(p: Payload)
    ensures var m := Build(p).members;
      && m.Keys == WIRE_KEYS
      && m["v"] == Num(VERSION) && m["target"] == Str(p.target)
      && m["nonce"] == Str(p.nonce) && m["task"] == Str(p.task)
  {
    assert |"v"| == 1 && |"target"| == 6 && |"nonce"| == 5 && |"task"| == 4;
  }

  lemma WireMembersDecode(m: map<string, Json>, p: Payload)
    requires Usable(p) && m.Keys <= WIRE_KEYS && Member(m, "v") == Some(Num(VERSION))
    requires TextMember(m, "target") == Some(p.target)
    requires TextMember(m, "nonce") == Some(p.nonce)
    requires TextMember(m, "task") == Some(p.task)
    ensures DecodeMembers(m) == Decoded(p)
  {
  }

  lemma DecodedWasBuilt(m: map<string, Json>, p: Payload)
    requires DecodeMembers(m) == Decoded(p)
    ensures m == Build(p).members && Usable(p)
  {
    hide IsGardenId, IsNonce, Trim, Length16;
    BuiltMembers(p);
    assert m.Keys == WIRE_KEYS;
  }

  /** Usable are a garden id, a minted nonce and a task of at most 16000 code units that is not all white space. */
  lemma UsableExactly(p: Payload)
    ensures Usable(p)
      <==> ((exists day, time, suffix :: StampedId(p.target, day, time, suffix))
            && (exists bytes: seq<Byte> :: |bytes| == 12 && p.nonce == Mint(bytes))
            && (exists i :: 0 <= i < |p.task| && !IsSpace(p.task[i]))
            && Length16(p.task) <= 16000)
  {
    hide IsGardenId, IsNonce, Mint, StampedId;
    GardenIdExactly(p.target);
    NonceExactly(p.nonce);
    TrimResult(p.task);
  }

  /** The wire object names the version, the three texts, and nothing else. */
  lemma BuildExactly(p: Payload, m: map<string, Json>)
    ensures Build(p) == Obj(m)
      <==> (m.Keys == {"v", "target", "nonce", "task"} && m["v"] == Num(1.0) && m["target"] == Str(p.target)
            && m["nonce"] == Str(p.nonce) && m["task"] == Str(p.task))
  {
    BuiltMembers(p);
    if m.Keys == {"v", "target", "nonce", "task"} && m["v"] == Num(1.0) && m["target"] == Str(p.target)
       && m["nonce"] == Str(p.nonce) && m["task"] == Str(p.task) {
      assert m == Build(p).members;
    }
  }

  /** Why a launch is refused: by the first of the checks it fails. */
  lemma RefusedExactly(flag: FlagValue)
    ensures Decode(flag) == Rejected(FlagAbsent) <==> flag == NoFlag
    ensures Decode(flag) == Rejected(FlagNotString) <==> flag == NotText
    ensures Decode(flag) == Rejected(PayloadNotJson) <==> flag == Text(None)
    ensures Decode(flag) == Rejected(PayloadNotObject) <==> flag.Text? && flag.parsed.Some? && !flag.parsed.value.Obj?
  {
    hide DecodeMembers;
    if flag.Text? && flag.parsed.Some? && flag.parsed.value.Obj? {
      ObjectRefusedExactly(flag.parsed.value.members);
    }
  }

  /** The same for an object: version, keys, target, nonce, task, in that order. */
  lemma ObjectRefusedExactly(m: map<string, Json>)
    ensures var version := "v" in m && m["v"] == Num(1.0);
      var keys := forall key <- m :: key in {"v", "target", "nonce", "task"};
      var target := "target" in m && m["target"].Str? && IsGardenId(m["target"].text);
      var nonce := "nonce" in m && m["nonce"].Str? && IsNonce(m["nonce"].text);
      var task := "task" in m && m["task"].Str? && exists c <- m["task"].text :: !IsSpace(c);
      match DecodeMembers(m)
      case Rejected(VersionUnsupported) => !version
      case Rejected(PayloadUnknownKey) => version && !keys
      case Rejected(TargetInvalid) => version && keys && !target
      case Rejected(NonceInvalid) => version && keys && target && !nonce
      case Rejected(TaskEmpty) => version && keys && target && nonce && !task
      case Rejected(TaskTooLong) => version && keys && target && nonce && task && Length16(m["task"].text) > 16000
      case Rejected(_) => false
      case Decoded(p) =>
        && version && keys && target && nonce && task && Length16(m["task"].text) <= 16000
        && p == Payload(m["target"].text, m["nonce"].text, m["task"].text)
  {
    hide IsGardenId, IsNonce, Trim, Length16, IsSpace;
    if "task" in m && m["task"].Str? { TrimResult(m["task"].text); }
  }

  /** The decoder accepts exactly the wire objects of usable payloads, and nothing wider. */
  lemma DecodeAcceptsExactlyBuilt(json: Json, p: Payload)
    ensures Decode(Text(Some(json))) == Decoded(p) <==> json == Build(p) && Usable(p)
  {
    if json == Build(p) && Usable(p) {
      BuiltMembers(p);
      WireMembersDecode(json.members, p);
    } else if Decode(Text(Some(json))) == Decoded(p) {
      DecodedWasBuilt(json.members, p);
    }
  }

  /** The launcher composes exactly for a named caller and a task that, trimmed, is neither empty nor too long. */
  lemma ComposedExactly(caller: string, nonce: string, task: string, p: Payload)
    ensures Compose(caller, nonce, task) == Some(p)
      <==> (caller != "" && p.target == caller && p.nonce == nonce && p.task == Trim(task) && p.task != ""
            && Length16(p.task) <= 16000)
  {
    hide Trim, Length16;
  }

  /** Every launch the launcher composes for a real garden caller and a minted nonce is decoded back whole. */
  lemma ComposedLaunchDecodes(caller: string, nonce: string, task: string)
    requires IsGardenId(caller) && IsNonce(nonce)
    requires Compose(caller, nonce, task).Some?
    ensures Decode(Text(Some(Build(Compose(caller, nonce, task).value))))
         == Decoded(Payload(caller, nonce, Trim(task)))
  {
    TrimResult(task);
    TrimOfTrimmed(Trim(task));
    DecodeAcceptsExactlyBuilt(Build(Compose(caller, nonce, task).value), Compose(caller, nonce, task).value);
  }
}
