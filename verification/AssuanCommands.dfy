/** The command handlers and the command loop of the smart-card shim
    (crates/scd-shim/src/main.rs). */
module AssuanCommands {
  import opened Common
  import opened Identities
  import opened Assuan
  import opened KeySexp
  import C = Certificate
  import Encodings

  const SERIAL := "D2760001240103000000000000000100"

  // ---- DigestInfo ----

  const Sha256Prefix: seq<Byte> :=
    [0x30, 0x31, 0x30, 0x0d, 0x06, 0x09, 0x60, 0x86, 0x48, 0x01, 0x65, 0x03, 0x04, 0x02, 0x01, 0x05, 0x00, 0x04, 0x20]

  const Sha512Prefix: seq<Byte> :=
    [0x30, 0x51, 0x30, 0x0d, 0x06, 0x09, 0x60, 0x86, 0x48, 0x01, 0x65, 0x03, 0x04, 0x02, 0x03, 0x05, 0x00, 0x04, 0x40]

  function StripDigestInfo(data: seq<Byte>): seq<Byte> {
    if |data| == 51 && Sha256Prefix <= data then data[|Sha256Prefix|..]
    else if |data| == 83 && Sha512Prefix <= data then data[|Sha512Prefix|..]
    else data
  }

  /** Stripping undoes wrapping a 32-byte or 64-byte hash, and touches nothing else. */
  lemma StripUndoesWrapping(data: seq<Byte>, hash: seq<Byte>)
    ensures StripDigestInfo(data) == hash <==>
      (|hash| == 32 && data == Sha256Prefix + hash)
      || (|hash| == 64 && data == Sha512Prefix + hash)
      || (data == hash && !(|data| == 51 && Sha256Prefix <= data) && !(|data| == 83 && Sha512Prefix <= data))
  {
    assert |Sha256Prefix| == 19 && |Sha512Prefix| == 19;
    if |data| == 51 && Sha256Prefix <= data {
      assert data == Sha256Prefix + data[19..];
    } else if |data| == 83 && Sha512Prefix <= data {
      assert data == Sha512Prefix + data[19..];
    }
    assert (Sha256Prefix + hash)[19..] == hash && (Sha512Prefix + hash)[19..] == hash;
  }

  /** DigestInfo of PKCS #1 (section 9.2 of RFC 8017): the hash's algorithm, without
      parameters, and the hash. */
  function DigestInfo(oid: seq<Byte>, hash: seq<Byte>): C.Tlv {
    C.Cons(0x30, [C.Cons(0x30, [C.Prim(0x06, oid), C.Prim(0x05, [])]), C.Prim(0x04, hash)])
  }

  /** 2.16.840.1.101.3.4.2.n: SHA-256 is 1, SHA-512 is 3. */
  function HashOid(n: Byte): seq<Byte> {
    [2 * 40 + 16, 128 + 840 / 128, 840 % 128, 1, 101, 3, 4, 2, n]
  }

  lemma AlgorithmIsWritten(n: Byte)
    ensures var v := C.Cons(0x30, [C.Prim(0x06, HashOid(n)), C.Prim(0x05, [])]);
            C.Write(v) == [0x30, 13] + ([6, 9] + HashOid(n) + [5, 0]) && C.Fits(v)
  {
    var oid, none := C.Prim(0x06, HashOid(n)), C.Prim(0x05, []);
    C.WriteAll2(oid, none);
    assert C.Write(oid) == [6, 9] + HashOid(n) && C.Write(none) == [5, 0];
  }

  lemma OctetsAreWritten(hash: seq<Byte>)
    requires |hash| < 128
    ensures C.Write(C.Prim(0x04, hash)) == [4, |hash|] + hash && C.Fits(C.Prim(0x04, hash))
  {
  }

  lemma DigestInfoIsWritten(n: Byte, prefix: seq<Byte>, hash: seq<Byte>)
    requires (n == 1 && |hash| == 32 && prefix == Sha256Prefix) || (n == 3 && |hash| == 64 && prefix == Sha512Prefix)
    ensures C.Write(DigestInfo(HashOid(n), hash)) == prefix + hash
    ensures C.Fits(DigestInfo(HashOid(n), hash))
  {
    hide Sha256Prefix, Sha512Prefix, HashOid;
    var algorithm := C.Cons(0x30, [C.Prim(0x06, HashOid(n)), C.Prim(0x05, [])]);
    var octets := C.Prim(0x04, hash);
    AlgorithmIsWritten(n);
    OctetsAreWritten(hash);
    Prefixes();
    OidLength(n);
    PairIsWritten(algorithm, octets);
  }

  lemma OidLength(n: Byte)
    ensures |HashOid(n)| == 9
  {
  }

  lemma PairIsWritten(a: C.Tlv, b: C.Tlv)
    requires C.Fits(a) && C.Fits(b) && |C.Write(a)| + |C.Write(b)| < 128
    ensures C.Write(C.Cons(0x30, [a, b])) == [0x30, |C.Write(a)| + |C.Write(b)|] + (C.Write(a) + C.Write(b))
    ensures C.Fits(C.Cons(0x30, [a, b]))
  {
    C.WriteAll2(a, b);
    assert [a, b][1..] == [b] && [b][1..] == [];
  }

  lemma Prefixes()
    ensures Sha256Prefix == [0x30, 17 + 32] + ([0x30, 13] + ([6, 9] + HashOid(1) + [5, 0])) + [4, 32]
    ensures Sha512Prefix == [0x30, 17 + 64] + ([0x30, 13] + ([6, 9] + HashOid(3) + [5, 0])) + [4, 64]
  {
  }

  /** What is stripped is exactly the DER of a DigestInfo of SHA-256 or SHA-512 around a hash
      of that length. */
  lemma StrippedIsDigestInfo(hash: seq<Byte>)
    ensures |hash| == 32 ==> C.Read(Sha256Prefix + hash) == Some(DigestInfo(HashOid(1), hash))
    ensures |hash| == 64 ==> C.Read(Sha512Prefix + hash) == Some(DigestInfo(HashOid(3), hash))
  {
    hide DigestInfo, Sha256Prefix, Sha512Prefix, C.Write, C.Fits, C.ReadOne;
    if |hash| == 32 {
      DigestInfoIsWritten(1, Sha256Prefix, hash);
      C.WriteReads(DigestInfo(HashOid(1), hash), []);
      assert Sha256Prefix + hash + [] == Sha256Prefix + hash;
    } else if |hash| == 64 {
      DigestInfoIsWritten(3, Sha512Prefix, hash);
      C.WriteReads(DigestInfo(HashOid(3), hash), []);
      assert Sha512Prefix + hash + [] == Sha512Prefix + hash;
    }
  }

  // ---- The identity table ----

  datatype Identity = Identity(publicKey: seq<Byte>, index: nat, keygrip: string, keyref: string)

  /** The second identity signs for authentication; every other one is OPENPGP.1. */
  function KeyrefAt(i: nat): string {
    if i == 1 then "OPENPGP.3" else "OPENPGP.1"
  }

  /** `grip` is the keygrip, a hash of the public key. */
  function Table(kept: seq<Kept>, grip: seq<Byte> -> string): (ids: seq<Identity>)
    ensures |ids| == |kept|
    ensures forall i :: 0 <= i < |ids| ==>
      ids[i] == Identity(kept[i].publicKey, kept[i].index, grip(kept[i].publicKey), KeyrefAt(i))
  {
    seq(|kept|, i requires 0 <= i < |kept| =>
      Identity(kept[i].publicKey, kept[i].index, grip(kept[i].publicKey), KeyrefAt(i)))
  }

  predicate Named(id: Identity, name: string) {
    id.keygrip == name || id.keyref == name
  }

  /** `iter().find` */
  function FirstNamed(ids: seq<Identity>, name: string): (r: Option<nat>)
    ensures r.Some? ==> r.value < |ids| && Named(ids[r.value], name)
  {
    if ids == [] then None
    else if Named(ids[0], name) then Some(0)
    else match FirstNamed(ids[1..], name) case Some(i) => Some(i + 1) case None => None
  }

  function FirstWithKeyref(ids: seq<Identity>, keyref: string): (r: Option<nat>)
    ensures r.Some? ==> r.value < |ids| && ids[r.value].keyref == keyref
  {
    if ids == [] then None
    else if ids[0].keyref == keyref then Some(0)
    else match FirstWithKeyref(ids[1..], keyref) case Some(i) => Some(i + 1) case None => None
  }

  /** The key a PKSIGN argument names, or else the authentication key. */
  function SigningKey(ids: seq<Identity>, name: string): (r: Option<nat>)
    ensures r.Some? ==> r.value < |ids|
  {
    if FirstNamed(ids, name).Some? then FirstNamed(ids, name) else FirstWithKeyref(ids, "OPENPGP.3")
  }

  // ---- Output ----

  /** A line written: the texts after OK and ERR are left out. */
  datatype Line = Ok | Err(code: nat) | Status(keyword: string, value: string) | Data(encoded: seq<Byte>)

  predicate Final(l: Line) {
    l.Ok? || l.Err?
  }

  /** A request for a signature. */
  datatype Call = Call(index: nat, publicKey: seq<Byte>, data: seq<Byte>)

  // ---- What each command does ----

  /** `upper` is the upper-casing of command words, `pid` the digits of the process id. */
  datatype Config = Config(identities: seq<Identity>, upper: string -> string, pid: seq<Byte>)

  /** `aborted` when the shim panics on the line. */
  datatype Outcome = Outcome(stored: seq<Byte>, lines: seq<Line>, call: Option<Call>, aborted: bool := false)

  function TrimZeros(s: string): string {
    if s != "" && s[|s| - 1] == '0' then TrimZeros(s[..|s| - 1]) else s
  }

  function HexPrefix(s: string): string {
    if s != "" && Encodings.HexVal(s[0]).Some? then [s[0]] + HexPrefix(s[1..]) else ""
  }

  /** What follows the first occurrence of a pattern. */
  function After(s: string, pattern: string): Option<string> {
    if pattern <= s then Some(s[|pattern|..])
    else if s == "" then None
    else After(s[1..], pattern)
  }

  function SerialNoLines(args: string): seq<Line> {
    match After(args, "--demand=")
    case Some(demand) =>
      if TrimZeros(SERIAL) == TrimZeros(HexPrefix(demand)) then [Status("SERIALNO", SERIAL), Ok] else [Err(67)]
    case None => [Status("SERIALNO", SERIAL), Ok]
  }

  /** One status line for each identity. */
  function StatusLines(ids: seq<Identity>, keyword: string, text: Identity -> string): (r: seq<Line>)
    ensures |r| == |ids| && forall i :: 0 <= i < |r| ==> r[i].Status?
  {
    if ids == [] then []
    else StatusLines(ids[..|ids| - 1], keyword, text) + [Status(keyword, text(ids[|ids| - 1]))]
  }

  function PairText(): Identity -> string {
    (id: Identity) => id.keygrip + " " + id.keyref
  }

  function InfoText(): Identity -> string {
    (id: Identity) => id.keygrip + " T " + SERIAL + " " + id.keyref + " - - - -"
  }

  function AttrText(): Identity -> string {
    (id: Identity) => id.keyref + " 22 1.3.101.112"
  }

  function LearnLines(ids: seq<Identity>): seq<Line> {
    [Status("SERIALNO", SERIAL), Status("APPTYPE", "OPENPGP")] + StatusLines(ids, "KEYPAIRINFO", PairText()) + [Ok]
  }

  function ReadKeyLines(ids: seq<Identity>, args: string): seq<Line> {
    match FirstNamed(ids, Trim(AfterOptions(args)))
    case Some(i) => [Data(PercentEncode(PublicKeySexp(ids[i].publicKey))), Ok]
    case None => [Err(69)]
  }

  function GetAttrLines(ids: seq<Identity>, attr: string): seq<Line> {
    if attr == "SERIALNO" then [Status("SERIALNO", SERIAL), Ok]
    else if attr == "APPTYPE" then [Status("APPTYPE", "OPENPGP"), Ok]
    else if attr == "KEY-ATTR" then StatusLines(ids, "KEY-ATTR", AttrText()) + [Ok]
    else if attr == "$AUTHKEYID" then
      (if FirstWithKeyref(ids, "OPENPGP.3").Some? then [Status("AUTHKEYID", "OPENPGP.3")] else []) + [Ok]
    else if attr == "CHV-STATUS" then [Status("CHV-STATUS", "1 -1 -1 -1 3 3 3"), Ok]
    else if attr == "DISP-NAME" then [Status("DISP-NAME", "KeyMaster"), Ok]
    else [Ok]
  }

  function GetInfoLines(pid: seq<Byte>, what: string): seq<Line> {
    if what == "socket_name" then [Err(69)]
    else if what == "version" then [Data(PercentEncode(Ascii("0.1.0"))), Ok]
    else if what == "pid" then [Data(pid), Ok]
    else [Ok]
  }

  function SetData(stored: seq<Byte>, args: string): Outcome {
    match DataOf(args)
    case Bytes(data) => Outcome(data, [Ok], None)
    case Invalid => Outcome(stored, [Err(62)], None)
    case Abort => Outcome(stored, [], None, true)
  }

  /** `answer` is what asking for a signature comes to, None for any failure. A signature
      of the wrong length leaves the stored data in place. */
  function PkSign(ids: seq<Identity>, stored: seq<Byte>, args: string, answer: Option<seq<Byte>>): Outcome {
    match SigningKey(ids, Trim(AfterOptions(args)))
    case None => Outcome(stored, [Err(69)], None)
    case Some(i) =>
      if stored == [] then Outcome(stored, [Err(76)], None)
      else
        var call := Some(Call(ids[i].index, ids[i].publicKey, StripDigestInfo(stored)));
        match answer
        case Some(signature) =>
          if |signature| != 64 then Outcome(stored, [Err(2)], call)
          else Outcome([], [Data(PercentEncode(signature)), Ok], call)
        case None => Outcome([], [Err(2)], call)
  }

  function Command(cfg: Config, stored: seq<Byte>, name: string, args: string, answer: Option<seq<Byte>>): Outcome {
    if name == "SERIALNO" then Outcome(stored, SerialNoLines(args), None)
    else if name == "LEARN" then Outcome(stored, LearnLines(cfg.identities), None)
    else if name == "READKEY" then Outcome(stored, ReadKeyLines(cfg.identities, args), None)
    else if name == "SETDATA" then SetData(stored, args)
    else if name == "PKSIGN" then PkSign(cfg.identities, stored, args, answer)
    else if name == "KEYINFO" then Outcome(stored, StatusLines(cfg.identities, "KEYINFO", InfoText()) + [Ok], None)
    else if name == "GETATTR" then Outcome(stored, GetAttrLines(cfg.identities, Trim(args)), None)
    else if name == "GETINFO" then Outcome(stored, GetInfoLines(cfg.pid, Trim(args)), None)
    else if name == "READCERT" then Outcome(stored, [Err(69)], None)
    else if name == "RESTART" || name == "RESET" then Outcome([], [Ok], None)
    else Outcome(stored, [Ok], None)
  }

  /** The command word of a line in upper case, and the rest; nothing for a blank line. */
  function Parsed(cfg: Config, line: string): Option<(string, string)> {
    var trimmed := Trim(line);
    if trimmed == "" then None
    else
      var (cmd, args) := ParseCommand(trimmed);
      Some((cfg.upper(cmd), args))
  }

  function Handle(cfg: Config, stored: seq<Byte>, line: string, answer: Option<seq<Byte>>): Outcome {
    match Parsed(cfg, line)
    case None => Outcome(stored, [], None)
    case Some((name, args)) => Command(cfg, stored, name, args, answer)
  }

  // ---- Whole sessions ----

  /** A line of input, with what asking for a signature would come to at that point. */
  datatype Step = Step(line: string, answer: Option<seq<Byte>>)

  function Last(steps: seq<Step>): Step
    requires steps != []
  {
    steps[|steps| - 1]
  }

  function StoredAfter(cfg: Config, steps: seq<Step>): seq<Byte> {
    if steps == [] then []
    else Handle(cfg, StoredAfter(cfg, steps[..|steps| - 1]), Last(steps).line, Last(steps).answer).stored
  }

  function OutcomeOfLast(cfg: Config, steps: seq<Step>): Outcome
    requires steps != []
  {
    Handle(cfg, StoredAfter(cfg, steps[..|steps| - 1]), Last(steps).line, Last(steps).answer)
  }

  function OutputAfter(cfg: Config, steps: seq<Step>): seq<Line> {
    if steps == [] then [] else OutputAfter(cfg, steps[..|steps| - 1]) + OutcomeOfLast(cfg, steps).lines
  }

  function CallsAfter(cfg: Config, steps: seq<Step>): seq<Call> {
    if steps == [] then []
    else
      CallsAfter(cfg, steps[..|steps| - 1])
      + (match OutcomeOfLast(cfg, steps).call case Some(call) => [call] case None => [])
  }

  predicate IsBye(cfg: Config, line: string) {
    Parsed(cfg, line).Some? && Parsed(cfg, line).value.0 == "BYE"
  }

  /** A SETDATA whose argument splits a character. */
  predicate Aborts(cfg: Config, line: string) {
    match Parsed(cfg, line)
    case Some((name, args)) => name == "SETDATA" && DataOf(args) == Abort
    case None => false
  }

  predicate Ends(cfg: Config, line: string) {
    IsBye(cfg, line) || Aborts(cfg, line)
  }

  /** The lines of a session: none but the last ends it. */
  ghost predicate IsSession(cfg: Config, steps: seq<Step>) {
    forall k :: 0 <= k < |steps| - 1 ==> !Ends(cfg, steps[k].line)
  }

  lemma AbortedIffAborts(cfg: Config, stored: seq<Byte>, step: Step)
    ensures Handle(cfg, stored, step.line, step.answer).aborted <==> Aborts(cfg, step.line)
  {
    hide SerialNoLines, LearnLines, ReadKeyLines, GetAttrLines, GetInfoLines, StatusLines, Trim, ParseCommand,
         AfterOptions, DataOf, PercentEncode, StripDigestInfo, SigningKey;
  }

  class Shim {
    const cfg: Config
    var storedData: seq<Byte>
    var output: seq<Line>
    var calls: seq<Call>
    var aborted: bool

    constructor (raws: seq<Raw>, grip: seq<Byte> -> string, upper: string -> string, pid: seq<Byte>)
      ensures cfg == Config(Table(Keep(raws), grip), upper, pid)
      ensures storedData == [] && output == [] && calls == [] && !aborted
    {
      cfg := Config(Table(Keep(raws), grip), upper, pid);
      storedData, output, calls, aborted := [], [], [], false;
    }

    method Send(line: Line)
      modifies this`output
      ensures output == old(output) + [line]
    {
      output := output + [line];
    }

    method SendData(data: seq<Byte>)
      modifies this`output
      ensures output == old(output) + [Data(PercentEncode(data))]
    {
      var encoded: seq<Byte> := [];
      for i := 0 to |data|
        invariant encoded == PercentEncode(data[..i])
      {
        assert data[..i + 1][..i] == data[..i];
        if data[i] == '%' as int {
          encoded := encoded + [0x25, 0x32, 0x35];
        } else if data[i] == 13 {
          encoded := encoded + [0x25, 0x30, 0x44];
        } else if data[i] == 10 {
          encoded := encoded + [0x25, 0x30, 0x41];
        } else {
          encoded := encoded + [data[i]];
        }
      }
      assert data[..|data|] == data;
      Send(Data(encoded));
    }

    method SendStatuses(keyword: string, text: Identity -> string)
      modifies this`output
      ensures output == old(output) + StatusLines(cfg.identities, keyword, text)
    {
      var ids := cfg.identities;
      for i := 0 to |ids|
        invariant output == old(output) + StatusLines(ids[..i], keyword, text)
      {
        assert ids[..i + 1][..i] == ids[..i];
        Send(Status(keyword, text(ids[i])));
      }
      assert ids[..|ids|] == ids;
    }

    method HandleSetData(args: string)
      modifies this`storedData, this`output, this`aborted
      ensures storedData == SetData(old(storedData), args).stored
      ensures output == old(output) + SetData(old(storedData), args).lines
      ensures aborted == (old(aborted) || SetData(old(storedData), args).aborted)
    {
      hide HexDecoded, Squeeze;
      var decoded := HexDecode(Squeeze(args));
      match decoded {
        case Bytes(data) =>
          storedData := data;
          Send(Ok);
        case Invalid => Send(Err(62));
        case Abort => aborted := true;
      }
    }

    method HandlePkSign(args: string, answer: Option<seq<Byte>>)
      modifies this`storedData, this`output, this`calls
      ensures var o := PkSign(cfg.identities, old(storedData), args, answer);
              && storedData == o.stored && output == old(output) + o.lines
              && calls == old(calls) + (match o.call case Some(call) => [call] case None => [])
    {
      hide StripDigestInfo, PercentEncode, SigningKey, AfterOptions, Trim;
      var rest := SkipOptions(args);
      var key := SigningKey(cfg.identities, Trim(rest));
      if key.None? {
        Send(Err(69));
        return;
      }
      if storedData == [] {
        Send(Err(76));
        return;
      }
      var id := cfg.identities[key.value];
      calls := calls + [Call(id.index, id.publicKey, StripDigestInfo(storedData))];
      match answer {
        case Some(signature) =>
          if |signature| != 64 {
            Send(Err(2));
            return;
          }
          SendData(signature);
          Send(Ok);
        case None => Send(Err(2));
      }
      storedData := [];
    }

    method HandleReadKey(args: string)
      modifies this`output
      ensures output == old(output) + ReadKeyLines(cfg.identities, args)
    {
      hide PublicKeySexp, PercentEncode, FirstNamed, AfterOptions, Trim;
      var rest := SkipOptions(args);
      var key := FirstNamed(cfg.identities, Trim(rest));
      match key {
        case Some(i) =>
          SendData(PublicKeySexp(cfg.identities[i].publicKey));
          Send(Ok);
        case None => Send(Err(69));
      }
    }

    method HandleLearn()
      modifies this`output
      ensures output == old(output) + LearnLines(cfg.identities)
    {
      Send(Status("SERIALNO", SERIAL));
      Send(Status("APPTYPE", "OPENPGP"));
      SendStatuses("KEYPAIRINFO", PairText());
      Send(Ok);
    }

    /** One line of input. */
    method HandleLine(line: string, answer: Option<seq<Byte>>) returns (bye: bool)
      requires !aborted
      modifies this
      ensures aborted == Handle(cfg, old(storedData), line, answer).aborted
      ensures var o := Handle(cfg, old(storedData), line, answer);
              && storedData == o.stored && output == old(output) + o.lines
              && calls == old(calls) + (match o.call case Some(call) => [call] case None => [])
      ensures bye <==> IsBye(cfg, line)
    {
      hide SerialNoLines, LearnLines, ReadKeyLines, GetAttrLines, GetInfoLines, SetData, PkSign, StatusLines, Trim,
        ParseCommand;
      bye := false;
      var trimmed := Trim(line);
      if trimmed == "" {
        return;
      }
      var (cmd, args) := ParseCommand(trimmed);
      var name := cfg.upper(cmd);
      if name == "SETDATA" {
        HandleSetData(args);
        NoCallFromSetData(old(storedData), args);
      } else if name == "PKSIGN" {
        HandlePkSign(args, answer);
        PkSignDoesNotAbort(cfg.identities, old(storedData), args, answer);
      } else if name == "LEARN" {
        HandleLearn();
      } else if name == "READKEY" {
        HandleReadKey(args);
      } else if name == "KEYINFO" {
        SendStatuses("KEYINFO", InfoText());
        Send(Ok);
      } else if name == "SERIALNO" {
        output := output + SerialNoLines(args);
      } else if name == "GETATTR" {
        output := output + GetAttrLines(cfg.identities, Trim(args));
      } else if name == "GETINFO" {
        output := output + GetInfoLines(cfg.pid, Trim(args));
      } else if name == "READCERT" {
        Send(Err(69));
      } else if name == "RESTART" || name == "RESET" {
        storedData := [];
        Send(Ok);
      } else {
        Send(Ok);
        bye := name == "BYE";
      }
    }

    /** The command loop: greeting, then every line up to the first that ends the session,
        by BYE or by a panic. */
    method Serve(steps: seq<Step>) returns (n: nat)
      requires storedData == [] && output == [] && calls == [] && !aborted
      modifies this
      ensures n <= |steps| && IsSession(cfg, steps[..n])
      ensures n < |steps| ==> n > 0 && Ends(cfg, steps[n - 1].line)
      ensures storedData == StoredAfter(cfg, steps[..n])
      ensures output == [Ok] + OutputAfter(cfg, steps[..n])
      ensures calls == CallsAfter(cfg, steps[..n])
      ensures aborted <==> n > 0 && Aborts(cfg, steps[n - 1].line)
    {
      hide IsBye, Handle, Aborts;
      Send(Ok);
      n := 0;
      while n < |steps|
        invariant n <= |steps| && forall k :: 0 <= k < n ==> !Ends(cfg, steps[k].line)
        invariant storedData == StoredAfter(cfg, steps[..n])
        invariant output == [Ok] + OutputAfter(cfg, steps[..n])
        invariant calls == CallsAfter(cfg, steps[..n])
        invariant !aborted
      {
        assert steps[..n + 1][..n] == steps[..n] && Last(steps[..n + 1]) == steps[n];
        AbortedIffAborts(cfg, storedData, steps[n]);
        var bye := HandleLine(steps[n].line, steps[n].answer);
        n := n + 1;
        if bye || aborted {
          return;
        }
      }
    }
  }

  lemma PkSignDoesNotAbort(ids: seq<Identity>, stored: seq<Byte>, args: string, answer: Option<seq<Byte>>)
    ensures !PkSign(ids, stored, args, answer).aborted
  {
    hide StripDigestInfo, PercentEncode, SigningKey, Trim, AfterOptions;
  }

  lemma NoCallFromSetData(stored: seq<Byte>, args: string)
    ensures SetData(stored, args).call == None
  {
  }

  // ---- One answer per line ----

  function Finals(lines: seq<Line>): nat {
    if lines == [] then 0
    else Finals(lines[..|lines| - 1]) + (if Final(lines[|lines| - 1]) then 1 else 0)
  }

  function NonBlank(steps: seq<Step>): nat {
    if steps == [] then 0
    else NonBlank(steps[..|steps| - 1]) + (if Trim(Last(steps).line) != "" then 1 else 0)
  }

  /** Status and data lines, then one OK or ERR. */
  ghost predicate OneAnswer(lines: seq<Line>) {
    lines != [] && Final(lines[|lines| - 1]) && forall i :: 0 <= i < |lines| - 1 ==> !Final(lines[i])
  }

  lemma QueriesAnswerOnce(cfg: Config, args: string)
    ensures OneAnswer(SerialNoLines(args)) && OneAnswer(LearnLines(cfg.identities))
      && OneAnswer(ReadKeyLines(cfg.identities, args))
    ensures OneAnswer(GetAttrLines(cfg.identities, args)) && OneAnswer(GetInfoLines(cfg.pid, args))
    ensures OneAnswer(StatusLines(cfg.identities, "KEYINFO", InfoText()) + [Ok])
  {
    hide PercentEncode, PublicKeySexp, After, FirstNamed, FirstWithKeyref, StatusLines, Trim, AfterOptions;
  }

  lemma CommandAnswersOnce(cfg: Config, stored: seq<Byte>, name: string, args: string, answer: Option<seq<Byte>>)
    ensures var lines := Command(cfg, stored, name, args, answer).lines;
            if name == "SETDATA" && DataOf(args) == Abort then lines == [] else OneAnswer(lines)
  {
    hide SerialNoLines, LearnLines, ReadKeyLines, GetAttrLines, GetInfoLines, StatusLines,
         PercentEncode, StripDigestInfo, SigningKey, DataOf, Trim, AfterOptions;
    QueriesAnswerOnce(cfg, args);
    QueriesAnswerOnce(cfg, Trim(args));
  }

  lemma LineAnswersOnce(cfg: Config, stored: seq<Byte>, step: Step)
    ensures var lines := Handle(cfg, stored, step.line, step.answer).lines;
            if Trim(step.line) == "" || Aborts(cfg, step.line) then lines == [] else OneAnswer(lines)
  {
    hide Command, Trim, ParseCommand, OneAnswer, DataOf;
    if Parsed(cfg, step.line).Some? {
      var (name, args) := Parsed(cfg, step.line).value;
      CommandAnswersOnce(cfg, stored, name, args, step.answer);
    }
  }

  lemma {:induction false} NoFinals(lines: seq<Line>)
    requires forall i :: 0 <= i < |lines| ==> !Final(lines[i])
    ensures Finals(lines) == 0
  {
    if lines != [] {
      NoFinals(lines[..|lines| - 1]);
    }
  }

  lemma {:induction false} FinalsAdd(a: seq<Line>, b: seq<Line>)
    ensures Finals(a + b) == Finals(a) + Finals(b)
  {
    if b == [] {
      assert a + b == a;
    } else {
      FinalsAdd(a, b[..|b| - 1]);
      assert (a + b)[..|a + b| - 1] == a + b[..|b| - 1];
    }
  }

  function AbortCount(cfg: Config, steps: seq<Step>): nat {
    if steps == [] then 0
    else AbortCount(cfg, steps[..|steps| - 1]) + (if Aborts(cfg, Last(steps).line) then 1 else 0)
  }

  lemma {:induction false} NoAborts(cfg: Config, steps: seq<Step>)
    ensures AbortCount(cfg, steps) == 0 <==> forall k :: 0 <= k < |steps| ==> !Aborts(cfg, steps[k].line)
  {
    hide Aborts;
    if steps != [] {
      NoAborts(cfg, steps[..|steps| - 1]);
      assert forall k :: 0 <= k < |steps| - 1 ==> steps[..|steps| - 1][k] == steps[k];
    }
  }

  lemma {:induction false} AnswersCounted(cfg: Config, steps: seq<Step>)
    ensures Finals(OutputAfter(cfg, steps)) + AbortCount(cfg, steps) == NonBlank(steps)
  {
    hide Handle, StoredAfter, Trim, Aborts;
    if steps != [] {
      var init := steps[..|steps| - 1];
      AnswersCounted(cfg, init);
      var o := OutcomeOfLast(cfg, steps);
      LineAnswersOnce(cfg, StoredAfter(cfg, init), Last(steps));
      FinalsAdd(OutputAfter(cfg, init), o.lines);
      if OneAnswer(o.lines) {
        NoFinals(o.lines[..|o.lines| - 1]);
      }
      BlankDoesNotAbort(cfg, Last(steps).line);
    }
  }

  lemma BlankDoesNotAbort(cfg: Config, line: string)
    ensures Trim(line) == "" ==> !Aborts(cfg, line)
  {
    hide Trim;
  }

  /** In a session, every non-blank line gets exactly one OK or ERR, last in its own output,
      if and only if no SETDATA argument among the lines splits a character; the count of
      OK and ERR lines is that of non-blank lines under the same condition. */
  lemma EveryLineIsAnsweredIff(cfg: Config, steps: seq<Step>)
    ensures (forall k :: 0 <= k < |steps| && Trim(steps[k].line) != "" ==>
               OneAnswer(OutcomeOfLast(cfg, steps[..k + 1]).lines))
            <==> (forall k :: 0 <= k < |steps| ==> !Aborts(cfg, steps[k].line))
    ensures Finals(OutputAfter(cfg, steps)) == NonBlank(steps)
            <==> (forall k :: 0 <= k < |steps| ==> !Aborts(cfg, steps[k].line))
  {
    hide Handle, StoredAfter, Trim, Aborts, OneAnswer;
    AnswersCounted(cfg, steps);
    NoAborts(cfg, steps);
    forall k | 0 <= k < |steps|
      ensures Trim(steps[k].line) != "" ==>
        (OneAnswer(OutcomeOfLast(cfg, steps[..k + 1]).lines) <==> !Aborts(cfg, steps[k].line))
      ensures Aborts(cfg, steps[k].line) ==> Trim(steps[k].line) != ""
    {
      LineAnswersOnce(cfg, StoredAfter(cfg, steps[..k + 1][..k]), steps[k]);
      BlankDoesNotAbort(cfg, steps[k].line);
      EmptyIsNoAnswer();
    }
  }

  lemma EmptyIsNoAnswer()
    ensures !OneAnswer([])
  {
  }

  /** The line `SETDATA aé1`: four octets, and the first two end inside the second letter. */
  lemma SplitCharacterAborts(cfg: Config, answer: Option<seq<Byte>>)
    requires cfg.upper("SETDATA") == "SETDATA"
    ensures var line := "SETDATA" + " " + ['a', 0xE9 as char, '1'];
            && Aborts(cfg, line)
            && OutputAfter(cfg, [Step(line, answer)]) == [] && NonBlank([Step(line, answer)]) == 1
  {
    var args := ['a', 0xE9 as char, '1'];
    var line := "SETDATA" + " " + args;
    LineParses(cfg, args);
    ArgumentSplits();
    var steps := [Step(line, answer)];
    assert steps[..0] == [];
    hide Trim, ParseCommand, DataOf, Command;
    LineAnswersOnce(cfg, [], steps[0]);
    BlankDoesNotAbort(cfg, line);
    assert OutputAfter(cfg, []) == [] && NonBlank([]) == 0;
  }

  lemma ArgumentSplits()
    ensures DataOf(['a', 0xE9 as char, '1']) == Abort
  {
    var a, e, one := 'a', 0xE9 as char, '1';
    var args := [a, e, one];
    assert args[1..] == [e, one] && [e, one][1..] == [one] && [one][1..] == "";
    assert Octets("") == 0 && Octets([one]) == 1 && Octets([e, one]) == 3 && Octets(args) == 4;
    assert Squeeze("") == "" && Squeeze([one]) == [one] && Squeeze([e, one]) == [e] + [one]
      && Squeeze(args) == [a] + ([e] + [one]);
    assert [a] + ([e] + [one]) == args;
    assert Trim(args) == args;
  }

  lemma WordHasNoSpace()
    ensures forall i :: 0 <= i < |"SETDATA"| ==> !IsSpace("SETDATA"[i])
    ensures IsSpace(' ')
  {
  }

  lemma LineParses(cfg: Config, args: string)
    requires args != "" && !IsSpace(args[0]) && !IsSpace(args[|args| - 1])
    requires cfg.upper("SETDATA") == "SETDATA"
    ensures Parsed(cfg, "SETDATA" + " " + args) == Some(("SETDATA", args))
  {
    hide IsSpace, Trim, TrimStart, FirstSpace;
    var word, tail := "SETDATA", " " + args;
    var line := "SETDATA" + " " + args;
    assert line == word + tail;
    WordHasNoSpace();
    NothingToTrim(line);
    WordEnds(word, tail);
    assert line[..|word|] == word && line[|word|..] == tail;
    TrimGap(" ", args);
    NoLeadingSpace(args);
  }

  // ---- What is signed ----

  /** The bytes of a successful SETDATA. */
  function DataSet(cfg: Config, step: Step): Option<seq<Byte>> {
    match Parsed(cfg, step.line)
    case Some((name, args)) =>
      if name == "SETDATA" && DataOf(args).Bytes? then Some(DataOf(args).bytes) else None
    case None => None
  }

  /** RESTART and RESET clear; so does a PKSIGN that finds its key, unless the signature
      comes back with the wrong length. */
  predicate Clears(cfg: Config, step: Step) {
    match Parsed(cfg, step.line)
    case Some((name, args)) =>
      || name == "RESTART" || name == "RESET"
      || (name == "PKSIGN" && SigningKey(cfg.identities, Trim(AfterOptions(args))).Some?
          && (step.answer.None? || |step.answer.value| == 64))
    case None => false
  }

  /** The data of the latest successful SETDATA not since cleared. */
  function LatestData(cfg: Config, steps: seq<Step>): seq<Byte> {
    if steps == [] || Clears(cfg, Last(steps)) then []
    else
      match DataSet(cfg, Last(steps))
      case Some(data) => data
      case None => LatestData(cfg, steps[..|steps| - 1])
  }

  /** The request for a signature a line makes, given the data to sign. */
  function Request(cfg: Config, line: string, data: seq<Byte>): Option<Call> {
    match Parsed(cfg, line)
    case None => None
    case Some((name, args)) =>
      if name != "PKSIGN" || data == [] then None
      else
        match SigningKey(cfg.identities, Trim(AfterOptions(args)))
        case None => None
        case Some(i) => Some(Call(cfg.identities[i].index, cfg.identities[i].publicKey, StripDigestInfo(data)))
  }

  lemma StepStores(cfg: Config, stored: seq<Byte>, step: Step)
    ensures var o := Handle(cfg, stored, step.line, step.answer);
            && o.stored == (if Clears(cfg, step) then []
                            else match DataSet(cfg, step) case Some(d) => d case None => stored)
            && o.call == Request(cfg, step.line, stored)
  {
    hide SerialNoLines, LearnLines, ReadKeyLines, GetAttrLines, GetInfoLines, StatusLines, Trim, ParseCommand,
         AfterOptions, DataOf, PercentEncode, StripDigestInfo, SigningKey;
  }

  /** After any session, a line asks for a signature exactly when it is a PKSIGN whose key
      is found and a successful SETDATA is not since cleared, over that data, stripped. */
  lemma {:induction false} SignedDataIsLatestSetData(cfg: Config, steps: seq<Step>, next: Step)
    ensures StoredAfter(cfg, steps) == LatestData(cfg, steps)
    ensures Handle(cfg, StoredAfter(cfg, steps), next.line, next.answer).call
      == Request(cfg, next.line, LatestData(cfg, steps))
  {
    hide Handle, Clears, DataSet, Request;
    if steps != [] {
      SignedDataIsLatestSetData(cfg, steps[..|steps| - 1], Last(steps));
      StepStores(cfg, StoredAfter(cfg, steps[..|steps| - 1]), Last(steps));
    }
    StepStores(cfg, StoredAfter(cfg, steps), next);
  }

  /** A 64-byte signature reaches the client as one data line that decodes to it; any
      other answer of the phone becomes an error. */
  lemma SignatureReachesTheClient(cfg: Config, steps: seq<Step>, next: Step)
    requires Request(cfg, next.line, LatestData(cfg, steps)).Some?
    ensures var lines := Handle(cfg, StoredAfter(cfg, steps), next.line, next.answer).lines;
            if next.answer.Some? && |next.answer.value| == 64 then
              |lines| == 2 && lines[0].Data? && PercentDecode(lines[0].encoded) == next.answer && lines[1] == Ok
            else lines == [Err(2)]
  {
    hide StoredAfter, LatestData, Trim, ParseCommand, AfterOptions, PercentEncode, PercentDecode, StripDigestInfo,
      SigningKey;
    SignedDataIsLatestSetData(cfg, steps, next);
    if next.answer.Some? {
      DataLineRoundTrip(next.answer.value);
    }
  }

  /** After any session, a SETDATA line with a hex text in either case, white space anywhere,
      leaves exactly the encoded bytes in the register, and is answered with one OK. */
  lemma SetDataStoresTheBytes(cfg: Config, steps: seq<Step>, word: string, gap: string, pieces: seq<Piece>,
                              tail: string, bytes: seq<Byte>, answer: Option<seq<Byte>>)
    requires cfg.upper(word) == "SETDATA" && word != "" && Solid(word) && gap != "" && Blank(gap) && Blank(tail)
    requires forall i :: 0 <= i < |pieces| ==> Blank(pieces[i].gap) && Solid(pieces[i].word)
    requires Encodings.Lower(Joined(pieces)) == Encodings.HexEncode(bytes)
    ensures var line := word + (gap + (Spaced(pieces) + tail));
            && StoredAfter(cfg, steps + [Step(line, answer)]) == bytes
            && OutputAfter(cfg, steps + [Step(line, answer)]) == OutputAfter(cfg, steps) + [Ok]
  {
    hide Trim, ParseCommand, DataOf, Blank, Solid, PkSign, SerialNoLines, LearnLines, ReadKeyLines;
    var args := Spaced(pieces) + tail;
    var all := steps + [Step(word + (gap + args), answer)];
    LineSplits(word, gap, args);
    DataOfSpacedHex(pieces, tail, bytes);
    assert all[..|all| - 1] == steps;
  }

  // ---- Which key signs ----

  lemma {:induction false} FirstNamedIsFirst(ids: seq<Identity>, name: string)
    ensures match FirstNamed(ids, name)
            case Some(i) => forall j :: 0 <= j < i ==> !Named(ids[j], name)
            case None => forall j :: 0 <= j < |ids| ==> !Named(ids[j], name)
  {
    if ids != [] && !Named(ids[0], name) {
      FirstNamedIsFirst(ids[1..], name);
    }
  }

  lemma {:induction false} FirstKeyrefIsFirst(ids: seq<Identity>, keyref: string)
    ensures match FirstWithKeyref(ids, keyref)
            case Some(i) => forall j :: 0 <= j < i ==> ids[j].keyref != keyref
            case None => forall j :: 0 <= j < |ids| ==> ids[j].keyref != keyref
  {
    if ids != [] && ids[0].keyref != keyref {
      FirstKeyrefIsFirst(ids[1..], keyref);
    }
  }

  /** A signing request carries an index and key that match in the phone's own list: those
      of the first identity with that keygrip or keyref, else of the second one kept. */
  lemma SigningKeyMatchesThePhone(raws: seq<Raw>, grip: seq<Byte> -> string, name: string)
    ensures var ids := Table(Keep(raws), grip);
            match SigningKey(ids, name)
            case Some(i) =>
              && ids[i].index < |raws| && KeyOf(raws[ids[i].index]) == Some(ids[i].publicKey)
              && (if Named(ids[i], name) then forall j :: 0 <= j < i ==> !Named(ids[j], name)
                  else i == 1 && forall j :: 0 <= j < |ids| ==> !Named(ids[j], name))
            case None => |ids| < 2 && forall j :: 0 <= j < |ids| ==> !Named(ids[j], name)
  {
    hide KeyOf, Keep, FirstNamed, FirstWithKeyref;
    var ids := Table(Keep(raws), grip);
    KeepMatches(raws);
    FirstNamedIsFirst(ids, name);
    FirstKeyrefIsFirst(ids, "OPENPGP.3");
    assert KeyrefAt(0) != KeyrefAt(1);
    if SigningKey(ids, name).Some? {
      assert Matches(raws, Keep(raws)[SigningKey(ids, name).value]);
    }
    assert |ids| >= 2 ==> ids[1].keyref == "OPENPGP.3";
    assert forall j :: 0 <= j < |ids| && j != 1 ==> ids[j].keyref == "OPENPGP.1";
    assert "OPENPGP.1" != "OPENPGP.3" by { assert "OPENPGP.1"[8] != "OPENPGP.3"[8]; }
  }

  // ---- What READKEY shows ----

  /** After any session, READKEY answers with the first key of that keygrip or keyref, as a
      data line that decodes to its S-expression, or with an error when there is none. */
  lemma ReadKeyShowsTheNamedKey(raws: seq<Raw>, grip: seq<Byte> -> string, args: string)
    ensures var ids := Table(Keep(raws), grip); var name := Trim(AfterOptions(args));
            var lines := ReadKeyLines(ids, args);
            && ((forall j :: 0 <= j < |ids| ==> !Named(ids[j], name)) ==> lines == [Err(69)])
            && (forall i :: 0 <= i < |ids| && Named(ids[i], name)
                            && (forall j :: 0 <= j < i ==> !Named(ids[j], name)) ==>
                  |lines| == 2 && lines[0].Data? && lines[1] == Ok
                  && PercentDecode(lines[0].encoded) == Some(WriteSexp(KeyTree(ids[i].publicKey))))
  {
    hide Trim, AfterOptions, PercentEncode, PercentDecode, PublicKeySexp, KeyTree, WriteSexp, KeyOf, Keep;
    var ids := Table(Keep(raws), grip);
    var name := Trim(AfterOptions(args));
    FirstNamedIsFirst(ids, name);
    KeepMatches(raws);
    forall i | 0 <= i < |ids|
      ensures |ids[i].publicKey| == 32
    {
      assert Matches(raws, Keep(raws)[i]);
      KeysAre32Bytes(raws[Keep(raws)[i].index]);
    }
    if FirstNamed(ids, name).Some? {
      var key := ids[FirstNamed(ids, name).value].publicKey;
      SexpIsTheKeys(key);
      DataLineRoundTrip(PublicKeySexp(key));
    }
  }
}
