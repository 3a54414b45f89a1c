/** The environment file: quoting, rendering and reading it back. */
module EnvFile {
  import opened Common

  // ----- quoting -----

  /** The Unicode scalar values systemd refuses in an EnvironmentFile. */
  predicate Unsupported(c: char) {
    var code := c as int;
    code == 0 || code == 0xFEFF || 0xD800 <= code <= 0xDFFF || 0xFDD0 <= code <= 0xFDEF
    || code % 0x10000 == 0xFFFE || code % 0x10000 == 0xFFFF
  }

  predicate Refused(c: char) { c == '\n' || c == '\r' || Unsupported(c) }

  predicate Acceptable(value: string) { forall i :: 0 <= i < |value| ==> !Refused(value[i]) }

  /** Replace every occurrence of one character, in one pass. */
  function Replace(s: string, c: char, with: string): string {
    if s == "" then "" else (if s[0] == c then with else [s[0]]) + Replace(s[1..], c, with)
  }

  /** Two passes: backslashes first, then double quotes. */
  function Escaped(value: string): string { Replace(Replace(value, '\\', "\\\\"), '"', "\\\"") }

  function Quote(value: string): (r: Result<string, string>) {
    if !Acceptable(value) then Err("unsupported character in a systemd environment value")
    else Ok("\"" + Escaped(value) + "\"")
  }

  /** Undo exactly the two escapes, leaving any other backslash alone. */
  function Unescaped(s: string): string {
    if s == "" then ""
    else if s[0] == '\\' && |s| > 1 && (s[1] == '"' || s[1] == '\\') then [s[1]] + Unescaped(s[2..])
    else [s[0]] + Unescaped(s[1..])
  }

  function Unquote(raw: string): string {
    if |raw| >= 2 && raw[0] == '"' && raw[|raw| - 1] == '"' then Unescaped(raw[1..|raw| - 1]) else raw
  }

  /** One-pass escaping, the reference for the two passes. */
  function EscapedOnce(value: string): string {
    if value == "" then ""
    else (if value[0] == '\\' || value[0] == '"' then ['\\', value[0]] else [value[0]]) + EscapedOnce(value[1..])
  }

  lemma {:induction false} ReplaceConcat(s: string, t: string, c: char, with: string)
    ensures Replace(s + t, c, with) == Replace(s, c, with) + Replace(t, c, with)
  {
    if s == "" {
      assert s + t == t;
    } else {
      assert (s + t)[1..] == s[1..] + t;
      ReplaceConcat(s[1..], t, c, with);
    }
  }

  lemma ReplaceOne(c: char, d: char, with: string)
    ensures Replace([d], c, with) == if d == c then with else [d]
  {
    assert [d][1..] == [];
  }

  /** Replacing backslashes and then quotes is escaping each character once. */
  lemma {:induction false} TwoPassesAreOne(value: string)
    ensures Escaped(value) == EscapedOnce(value)
  {
    if value != "" {
      TwoPassesAreOne(value[1..]);
      var head := if value[0] == '\\' then "\\\\" else [value[0]];
      ReplaceConcat(head, Replace(value[1..], '\\', "\\\\"), '"', "\\\"");
      if value[0] == '\\' {
        assert head == ['\\'] + ['\\'];
        ReplaceConcat(['\\'], ['\\'], '"', "\\\"");
        ReplaceOne('"', '\\', "\\\"");
      } else {
        ReplaceOne('"', value[0], "\\\"");
      }
    }
  }

  lemma {:induction false} UnescapeInverts(value: string)
    ensures Unescaped(EscapedOnce(value)) == value
  {
    if value != "" {
      UnescapeInverts(value[1..]);
      var rest := EscapedOnce(value[1..]);
      if value[0] == '\\' || value[0] == '"' {
        assert (['\\', value[0]] + rest)[2..] == rest;
      } else {
        assert ([value[0]] + rest)[1..] == rest;
      }
    }
  }

  /** Every accepted value survives quoting and unquoting unchanged, and no other is accepted. */
  lemma QuoteRoundTrip(value: string)
    ensures Quote(value).Ok? <==> Acceptable(value)
    ensures Quote(value).Ok? ==> Unquote(Quote(value).value) == value
  {
    if Acceptable(value) {
      TwoPassesAreOne(value);
      UnescapeInverts(value);
      var raw := Quote(value).value;
      assert raw[1..|raw| - 1] == Escaped(value);
    }
  }

  lemma {:induction false} EscapedClean(value: string, c: char)
    requires c !in value && c != '\\' && c != '"'
    ensures c !in EscapedOnce(value)
  {
    if value != "" { EscapedClean(value[1..], c); }
  }

  /** What one round of the scanner does. */
  lemma ScanStep(inner: string, i: nat)
    requires i < |inner|
    ensures if inner[i] == '\\' && i + 1 < |inner| && (inner[i + 1] == '"' || inner[i + 1] == '\\')
            then Unescaped(inner[i..]) == [inner[i + 1]] + Unescaped(inner[i + 2..])
            else Unescaped(inner[i..]) == [inner[i]] + Unescaped(inner[i + 1..])
  {
    assert inner[i..][1..] == inner[i + 1..];
    if i + 1 < |inner| { assert inner[i..][2..] == inner[i + 2..]; }
  }

  method Scan(inner: string) returns (value: string)
    ensures value == Unescaped(inner)
  {
    hide Unescaped;
    value := "";
    var i := 0;
    ScanEnd();
    assert inner[0..] == inner && inner[|inner|..] == "";
    while i < |inner|
      invariant 0 <= i <= |inner|
      invariant value + Unescaped(inner[i..]) == Unescaped(inner)
    {
      ScanStep(inner, i);
      if inner[i] == '\\' && i + 1 < |inner| && (inner[i + 1] == '"' || inner[i + 1] == '\\') {
        value := value + [inner[i + 1]];
        i := i + 2;
      } else {
        value := value + [inner[i]];
        i := i + 1;
      }
    }
  }

  lemma ScanEnd()
    ensures Unescaped("") == ""
  {
  }

  /** Strip the double quotes and scan what is inside, by index. */
  method EnvUnquote(raw: string) returns (value: string)
    ensures value == Unquote(raw)
  {
    if |raw| >= 2 && raw[0] == '"' && raw[|raw| - 1] == '"' {
      value := Scan(raw[1..|raw| - 1]);
    } else {
      value := raw;
    }
  }

  // ----- reading -----

  /** What strip() removes at either end. */
  predicate Space(c: char) {
    var code := c as int;
    9 <= code <= 13 || 28 <= code <= 32 || code == 0x85 || code == 0xA0 || code == 0x1680 || 0x2000 <= code <= 0x200A
    || code == 0x2028 || code == 0x2029 || code == 0x202F || code == 0x205F || code == 0x3000
  }

  function StripLeft(s: string): string { if s != "" && Space(s[0]) then StripLeft(s[1..]) else s }

  function StripRight(s: string): string { if s != "" && Space(s[|s| - 1]) then StripRight(s[..|s| - 1]) else s }

  function Strip(s: string): string { StripRight(StripLeft(s)) }

  function Split(text: string): (lines: seq<string>)
    ensures |lines| >= 1
  {
    if text == "" then [""]
    else if text[0] == '\n' then [""] + Split(text[1..])
    else var rest := Split(text[1..]); [[text[0]] + rest[0]] + rest[1..]
  }

  function BeforeEquals(s: string): string { if s == "" || s[0] == '=' then "" else [s[0]] + BeforeEquals(s[1..]) }

  function AfterEquals(s: string): string {
    if s == "" then "" else if s[0] == '=' then s[1..] else AfterEquals(s[1..])
  }

  function AddLine(parsed: map<string, string>, line: string): map<string, string> {
    var stripped := Strip(line);
    if stripped == "" || stripped[0] == '#' || '=' !in stripped then parsed
    else parsed[Strip(BeforeEquals(stripped)) := Unquote(Strip(AfterEquals(stripped)))]
  }

  function ParseLines(parsed: map<string, string>, lines: seq<string>): map<string, string>
    decreases |lines|
  {
    if lines == [] then parsed else ParseLines(AddLine(parsed, lines[0]), lines[1..])
  }

  function Parse(text: string): map<string, string> { ParseLines(map[], Split(text)) }

  method ParseEnv(text: string) returns (parsed: map<string, string>)
    ensures parsed == Parse(text)
  {
    var lines := Split(text);
    parsed := map[];
    var i := 0;
    while i < |lines|
      invariant 0 <= i <= |lines|
      invariant ParseLines(parsed, lines[i..]) == Parse(text)
    {
      assert lines[i..][0] == lines[i] && lines[i..][1..] == lines[i + 1..];
      var stripped := Strip(lines[i]);
      ghost var before := parsed;
      if stripped != "" && stripped[0] != '#' && '=' in stripped {
        var value := EnvUnquote(Strip(AfterEquals(stripped)));
        parsed := parsed[Strip(BeforeEquals(stripped)) := value];
      }
      i := i + 1;
    }
  }

  // ----- fields -----

  /** One rendered assignment. */
  datatype Field = Field(key: string, raw: string)

  function Text(fields: seq<Field>): string {
    if fields == [] then "" else fields[0].key + "=" + fields[0].raw + "\n" + Text(fields[1..])
  }

  /** A key that can be nothing but a key, and a value that stays on its line and keeps its ends. */
  predicate Clean(f: Field) {
    && f.key != "" && f.raw != "" && f.key[0] != '#'
    && (forall i :: 0 <= i < |f.key| ==> f.key[i] != '=' && f.key[i] != '\n' && !Space(f.key[i]))
    && '\n' !in f.raw && !Space(f.raw[0]) && !Space(f.raw[|f.raw| - 1])
  }

  function Fold(parsed: map<string, string>, fields: seq<Field>): map<string, string>
    decreases |fields|
  {
    if fields == [] then parsed else Fold(parsed[fields[0].key := Unquote(fields[0].raw)], fields[1..])
  }

  lemma {:induction false} SplitLine(line: string, rest: string)
    requires '\n' !in line
    ensures Split(line + "\n" + rest) == [line] + Split(rest)
  {
    var text := line + "\n" + rest;
    if line == "" {
      assert text[1..] == rest;
    } else {
      assert text[1..] == line[1..] + "\n" + rest;
      SplitLine(line[1..], rest);
      assert text[0] == line[0] && line[0] != '\n';
      assert [line[0]] + line[1..] == line;
      assert ([line[1..]] + Split(rest))[1..] == Split(rest);
    }
  }

  lemma {:induction false} PartitionAt(key: string, raw: string)
    requires '=' !in key
    ensures BeforeEquals(key + "=" + raw) == key && AfterEquals(key + "=" + raw) == raw
  {
    var s := key + "=" + raw;
    if key != "" {
      assert s[1..] == key[1..] + "=" + raw;
      PartitionAt(key[1..], raw);
    } else {
      assert s[1..] == raw;
    }
  }

  lemma StripNothing(s: string)
    requires s != "" && !Space(s[0]) && !Space(s[|s| - 1])
    ensures Strip(s) == s
  {
  }

  lemma CleanLine(parsed: map<string, string>, f: Field)
    requires Clean(f)
    ensures AddLine(parsed, f.key + "=" + f.raw) == parsed[f.key := Unquote(f.raw)]
    ensures '\n' !in f.key + "=" + f.raw
  {
    var line := f.key + "=" + f.raw;
    assert line[0] == f.key[0] && line[|line| - 1] == f.raw[|f.raw| - 1] && line[|f.key|] == '=';
    hide Split, Unquote, Space;
    StripNothing(line);
    StripNothing(f.key);
    StripNothing(f.raw);
    PartitionAt(f.key, f.raw);
  }

  /** Reading clean fields back gives exactly their values. */
  lemma {:induction false} ParseFields(parsed: map<string, string>, fields: seq<Field>)
    requires forall f :: f in fields ==> Clean(f)
    ensures ParseLines(parsed, Split(Text(fields))) == Fold(parsed, fields)
    decreases |fields|
  {
    hide Clean, AddLine, Unquote;
    if fields == [] {
      EmptyLine(parsed);
    } else {
      var f := fields[0];
      CleanLine(parsed, f);
      SplitLine(f.key + "=" + f.raw, Text(fields[1..]));
      var lines := Split(Text(fields));
      assert lines[0] == f.key + "=" + f.raw && lines[1..] == Split(Text(fields[1..]));
      ParseFields(parsed[f.key := Unquote(f.raw)], fields[1..]);
    }
  }

  lemma EmptyLine(parsed: map<string, string>)
    ensures ParseLines(parsed, Split("")) == parsed
  {
    assert Split("") == [""] && [""][1..] == [];
    assert AddLine(parsed, "") == parsed;
    assert ParseLines(parsed, [""]) == ParseLines(AddLine(parsed, ""), []);
  }

  predicate DistinctFields(fields: seq<Field>) {
    forall i, j :: 0 <= i < j < |fields| ==> fields[i].key != fields[j].key
  }

  lemma DistinctCons(f: Field, rest: seq<Field>)
    requires DistinctFields(rest) && forall g :: g in rest ==> g.key != f.key
    ensures DistinctFields([f] + rest)
  {
  }

  lemma {:induction false} FoldIs(parsed: map<string, string>, fields: seq<Field>)
    requires DistinctFields(fields)
    ensures var m := Fold(parsed, fields);
            && (forall f :: f in fields ==> f.key in m && m[f.key] == Unquote(f.raw))
            && (forall k :: (forall f :: f in fields ==> f.key != k) ==>
                  (k in m <==> k in parsed) && (k in parsed ==> m[k] == parsed[k]))
            && (forall k :: k in m ==> k in parsed || exists f :: f in fields && f.key == k)
    decreases |fields|
  {
    hide Unquote;
    if fields != [] {
      var rest := fields[1..];
      FoldIs(parsed[fields[0].key := Unquote(fields[0].raw)], rest);
      forall f | f in rest ensures f.key != fields[0].key {
        var j :| 0 <= j < |rest| && rest[j] == f;
        assert fields[j + 1] == f;
      }
    }
  }

  // ----- the rendered file -----

  datatype Key =
    | Panel | Host | Port | Username | Password | TlsEnabled | DeploymentId | TlsCaFile | RetainedTopics
    | MeshPriority | SceneBridge | HotPoll | Resync | LogLevel

  function Name(k: Key): string {
    match k
    case Panel => "BRILLIANT_PANEL"
    case Host => "MQTT_HOST"
    case Port => "MQTT_PORT"
    case Username => "MQTT_USERNAME"
    case Password => "MQTT_PASSWORD"
    case TlsEnabled => "MQTT_TLS_ENABLED"
    case DeploymentId => "BRILLIANT_DEPLOYMENT_ID"
    case TlsCaFile => "MQTT_TLS_CA_FILE"
    case RetainedTopics => "RETAINED_TOPICS_FILE"
    case MeshPriority => "MESH_PRIORITY"
    case SceneBridge => "SCENE_BRIDGE_ENABLED"
    case HotPoll => "HOT_POLL_SECONDS"
    case Resync => "RESYNC_SECONDS"
    case LogLevel => "LOG_LEVEL"
  }

  datatype Settings = Settings(
    panel: string,
    host: string,
    port: int,
    username: string,
    password: string,
    tls: bool,
    deployment: Option<string>,
    caFile: Option<string>,
    meshPriority: int,
    sceneBridge: bool,
    hotPoll: Option<int>,
    resync: Option<int>)

  function Digits(n: nat): string { if n < 10 then ["0123456789"[n]] else Digits(n / 10) + ["0123456789"[n % 10]] }

  function Decimal(n: int): string { if n < 0 then "-" + Digits(-n) else Digits(n) }

  function Flag(b: bool): string { if b then "1" else "0" }

  const RETAINED_TOPICS_FILE: string := "/var/brilliant-mqtt/state/owned-topics.json"

  predicate HexDigit(c: char) { '0' <= c <= '9' || 'a' <= c <= 'f' }

  predicate DeploymentText(s: string) { |s| == 32 && forall i :: 0 <= i < |s| ==> HexDigit(s[i]) }

  const TLS_PREFIX: string := "/var/brilliant-mqtt/tls/mqtt-ca-"
  const PEM: string := ".pem"
  const RELEASES_PREFIX: string := "/var/brilliant-mqtt/releases/"
  const RELEASE_CA: string := "/mqtt-ca.pem"

  predicate AllHex(s: string) { forall i :: 0 <= i < |s| ==> HexDigit(s[i]) }

  predicate Alphanumeric(c: char) { '0' <= c <= '9' || 'A' <= c <= 'Z' || 'a' <= c <= 'z' }

  predicate VersionText(s: string) {
    1 <= |s| <= 128 && Alphanumeric(s[0])
    && forall i :: 0 <= i < |s| ==> Alphanumeric(s[i]) || s[i] == '.' || s[i] == '_' || s[i] == '+' || s[i] == '-'
  }

  /** A CA installed beside the releases, named by 16 hex digits. */
  predicate TlsCaPath(s: string) {
    && |s| == |TLS_PREFIX| + 16 + |PEM| && s[..|TLS_PREFIX|] == TLS_PREFIX
    && AllHex(s[|TLS_PREFIX|..|TLS_PREFIX| + 16]) && s[|TLS_PREFIX| + 16..] == PEM
  }

  /** A CA inside a release directory `<version>--<32 hex digits>`. */
  predicate ReleaseCaPath(s: string) {
    var tail := |s| - |RELEASE_CA|;
    && |s| >= |RELEASES_PREFIX| + 1 + 2 + 32 + |RELEASE_CA| && s[..|RELEASES_PREFIX|] == RELEASES_PREFIX
    && s[tail..] == RELEASE_CA && AllHex(s[tail - 32..tail]) && s[tail - 34..tail - 32] == "--"
    && VersionText(s[|RELEASES_PREFIX|..tail - 34])
  }

  predicate CaPath(s: string) { TlsCaPath(s) || ReleaseCaPath(s) }

  predicate Renderable(s: Settings) {
    && Acceptable(s.panel) && Acceptable(s.host) && Acceptable(s.username) && Acceptable(s.password)
    && (s.caFile.Some? ==> s.tls && CaPath(s.caFile.value))
    && (s.deployment.Some? ==> DeploymentText(s.deployment.value))
    && (s.hotPoll.Some? ==> 0 <= s.hotPoll.value <= 60)
    && (s.resync.Some? ==> 60 <= s.resync.value <= 86400)
  }

  /** One line of the file, when it is there. */
  datatype Slot = Slot(key: Key, raw: Option<string>)

  function Quoted(value: string): string { "\"" + Escaped(value) + "\"" }

  function DecimalOf(n: Option<int>): Option<string> { if n.Some? then Some(Decimal(n.value)) else None }

  function Slots(s: Settings): seq<Slot> {
    [Slot(Panel, Some(Quoted(s.panel))), Slot(Host, Some(Quoted(s.host))), Slot(Port, Some(Decimal(s.port))),
     Slot(Username, Some(Quoted(s.username))), Slot(Password, Some(Quoted(s.password))),
       Slot(TlsEnabled, Some(Flag(s.tls))),
     Slot(DeploymentId, s.deployment), Slot(TlsCaFile, s.caFile), Slot(RetainedTopics, Some(RETAINED_TOPICS_FILE)),
     Slot(MeshPriority, Some(Decimal(s.meshPriority))), Slot(SceneBridge, Some(Flag(s.sceneBridge))),
     Slot(HotPoll, DecimalOf(s.hotPoll)), Slot(Resync, DecimalOf(s.resync)), Slot(LogLevel, Some("INFO"))]
  }

  function Fields(slots: seq<Slot>): seq<Field> {
    if slots == [] then []
    else (if slots[0].raw.Some? then [Field(Name(slots[0].key), slots[0].raw.value)] else []) + Fields(slots[1..])
  }

  /** Refused settings render nothing. */
  function Render(s: Settings): Result<string, string> {
    if Renderable(s) then Ok(Text(Fields(Slots(s)))) else Err("invalid environment settings")
  }

  predicate KeyText(s: string) { forall i :: 0 <= i < |s| ==> 'A' <= s[i] <= 'Z' || s[i] == '_' }

  lemma ShortNames()
    ensures KeyText("BRILLIANT_PANEL") && KeyText("MQTT_HOST") && KeyText("MQTT_PORT") && KeyText("MQTT_USERNAME")
            && KeyText("MQTT_PASSWORD")
  {
  }

  lemma LongNames()
    ensures KeyText("MQTT_TLS_ENABLED") && KeyText("BRILLIANT_DEPLOYMENT_ID") && KeyText("MQTT_TLS_CA_FILE")
            && KeyText("RETAINED_TOPICS_FILE")
  {
  }

  lemma LastNames()
    ensures KeyText("MESH_PRIORITY") && KeyText("SCENE_BRIDGE_ENABLED") && KeyText("HOT_POLL_SECONDS")
            && KeyText("RESYNC_SECONDS") && KeyText("LOG_LEVEL")
  {
  }

  lemma NameShape(k: Key)
    ensures |Name(k)| >= 9 && KeyText(Name(k))
  {
    hide KeyText;
    ShortNames();
    LongNames();
    LastNames();
  }

  /** Enough of a name to tell it from every other. */
  function Tag(s: string): (nat, char, char, char, char)
    requires |s| >= 9
  {
    (|s|, s[0], s[1], s[5], s[|s| - 1])
  }

  function KeyTag(k: Key): (nat, char, char, char, char) {
    match k
    case Panel => (15, 'B', 'R', 'I', 'L')
    case Host => (9, 'M', 'Q', 'H', 'T')
    case Port => (9, 'M', 'Q', 'P', 'T')
    case Username => (13, 'M', 'Q', 'U', 'E')
    case Password => (13, 'M', 'Q', 'P', 'D')
    case TlsEnabled => (16, 'M', 'Q', 'T', 'D')
    case DeploymentId => (23, 'B', 'R', 'I', 'D')
    case TlsCaFile => (16, 'M', 'Q', 'T', 'E')
    case RetainedTopics => (20, 'R', 'E', 'N', 'E')
    case MeshPriority => (13, 'M', 'E', 'P', 'Y')
    case SceneBridge => (20, 'S', 'C', '_', 'D')
    case HotPoll => (16, 'H', 'O', 'O', 'S')
    case Resync => (14, 'R', 'E', 'C', 'S')
    case LogLevel => (9, 'L', 'O', 'E', 'L')
  }

  lemma NameTag(k: Key)
    ensures |Name(k)| >= 9 && Tag(Name(k)) == KeyTag(k)
  {
  }

  lemma NamesDiffer(a: Key, b: Key)
    requires a != b
    ensures Name(a) != Name(b)
  {
    hide Name;
    NameTag(a);
    NameTag(b);
  }

  predicate DistinctKeys(slots: seq<Slot>) { forall i, j :: 0 <= i < j < |slots| ==> slots[i].key != slots[j].key }

  /** The fields are the slots that are there, once each. */
  lemma {:induction false} FieldsFromSlots(slots: seq<Slot>)
    requires DistinctKeys(slots)
    ensures forall f :: f in Fields(slots) ==>
              exists i :: 0 <= i < |slots| && slots[i].raw.Some? && f == Field(Name(slots[i].key), slots[i].raw.value)
    ensures forall i :: 0 <= i < |slots| && slots[i].raw.Some? ==>
              Field(Name(slots[i].key), slots[i].raw.value) in Fields(slots)
    ensures DistinctFields(Fields(slots))
  {
    hide Name;
    if slots != [] {
      var rest := slots[1..];
      FieldsFromSlots(rest);
      forall f | f in Fields(rest) ensures f.key != Name(slots[0].key) {
        var i :| 0 <= i < |rest| && rest[i].raw.Some? && f == Field(Name(rest[i].key), rest[i].raw.value);
        assert slots[i + 1] == rest[i];
        NamesDiffer(slots[0].key, rest[i].key);
      }
      if slots[0].raw.Some? { DistinctCons(Field(Name(slots[0].key), slots[0].raw.value), Fields(rest)); }
      else { assert Fields(slots) == Fields(rest); }
      forall f | f in Fields(slots)
        ensures exists i :: 0 <= i < |slots| && slots[i].raw.Some? && f == Field(Name(slots[i].key), slots[i].raw.value)
      {
        if f in Fields(rest) {
          var i :| 0 <= i < |rest| && rest[i].raw.Some? && f == Field(Name(rest[i].key), rest[i].raw.value);
          assert slots[i + 1] == rest[i];
        } else {
          assert slots[0].raw.Some?;
        }
      }
      forall i | 0 <= i < |slots| && slots[i].raw.Some?
        ensures Field(Name(slots[i].key), slots[i].raw.value) in Fields(slots)
      {
        if i > 0 { assert rest[i - 1] == slots[i]; }
      }
    }
  }

  lemma SlotsDistinct(s: Settings)
    ensures DistinctKeys(Slots(s))
  {
    hide Quoted, Decimal, DecimalOf, Flag;
  }

  // ----- every rendered line reads back -----

  predicate CleanRaw(raw: string) { raw != "" && '\n' !in raw && !Space(raw[0]) && !Space(raw[|raw| - 1]) }

  lemma QuotedClean(value: string)
    requires Acceptable(value)
    ensures CleanRaw(Quoted(value))
  {
    TwoPassesAreOne(value);
    EscapedClean(value, '\n');
  }

  /** Letters, digits and signs stay on their line and are never trimmed. */
  lemma PlainClean(raw: string)
    requires raw != "" && forall i :: 0 <= i < |raw| ==> '!' < raw[i] <= '~'
    ensures CleanRaw(raw)
  {
  }

  lemma {:induction false} DigitsPlain(n: nat)
    ensures Digits(n) != "" && forall i :: 0 <= i < |Digits(n)| ==> '0' <= Digits(n)[i] <= '9'
  {
    if n >= 10 { DigitsPlain(n / 10); }
    DigitChar(n % 10);
  }

  lemma DigitChar(n: nat)
    requires n < 10
    ensures '0' <= "0123456789"[n] <= '9'
  {
  }

  lemma DecimalPlain(n: int)
    ensures Decimal(n) != "" && forall i :: 0 <= i < |Decimal(n)| ==> '!' < Decimal(n)[i] <= '~'
    ensures Decimal(n)[0] != '"'
  {
    if n < 0 { DigitsPlain(-n); } else { DigitsPlain(n); }
  }

  lemma FlagPlain(b: bool)
    ensures CleanRaw(Flag(b)) && Unquote(Flag(b)) == Flag(b)
  {
    PlainClean(Flag(b));
  }

  lemma DecimalClean(n: int)
    ensures CleanRaw(Decimal(n)) && Unquote(Decimal(n)) == Decimal(n)
  {
    hide CleanRaw, Decimal;
    DecimalPlain(n);
    PlainClean(Decimal(n));
  }

  lemma ConstantsClean()
    ensures CleanRaw(RETAINED_TOPICS_FILE) && CleanRaw("INFO")
  {
    PlainClean(RETAINED_TOPICS_FILE);
    PlainClean("INFO");
  }

  predicate Plain(s: string) { forall i :: 0 <= i < |s| ==> '!' < s[i] <= '~' && s[i] != '"' }

  lemma PlainParts()
    ensures Plain(TLS_PREFIX) && Plain(PEM) && Plain(RELEASES_PREFIX) && Plain(RELEASE_CA) && Plain("--")
    ensures TLS_PREFIX[0] == '/' && RELEASES_PREFIX[0] == '/'
  {
  }

  lemma PlainConcat(a: string, b: string)
    requires Plain(a) && Plain(b)
    ensures Plain(a + b)
  {
  }

  lemma HexPlain(s: string)
    requires AllHex(s) || VersionText(s)
    ensures Plain(s)
  {
  }

  /** A managed CA path is a plain word starting with a slash. */
  lemma CaPathPlain(s: string)
    requires CaPath(s)
    ensures s != "" && s[0] == '/' && Plain(s)
  {
    hide Plain, AllHex, VersionText;
    PlainParts();
    if TlsCaPath(s) {
      var hex := s[|TLS_PREFIX|..|TLS_PREFIX| + 16];
      HexPlain(hex);
      PlainConcat(TLS_PREFIX, hex);
      PlainConcat(TLS_PREFIX + hex, PEM);
      assert s == TLS_PREFIX + hex + PEM;
    } else {
      var tail := |s| - |RELEASE_CA|;
      var version, hex := s[|RELEASES_PREFIX|..tail - 34], s[tail - 32..tail];
      HexPlain(version);
      HexPlain(hex);
      PlainConcat(RELEASES_PREFIX, version);
      PlainConcat(RELEASES_PREFIX + version, "--");
      PlainConcat(RELEASES_PREFIX + version + "--", hex);
      PlainConcat(RELEASES_PREFIX + version + "--" + hex, RELEASE_CA);
      assert s == RELEASES_PREFIX + version + "--" + hex + RELEASE_CA;
    }
  }

  lemma OptionalClean(s: Settings)
    requires Renderable(s)
    ensures s.deployment.Some? ==> CleanRaw(s.deployment.value)
    ensures s.caFile.Some? ==> CleanRaw(s.caFile.value)
    ensures s.hotPoll.Some? ==> CleanRaw(Decimal(s.hotPoll.value))
    ensures s.resync.Some? ==> CleanRaw(Decimal(s.resync.value))
  {
    hide CleanRaw, Decimal, Acceptable, CaPath;
    if s.deployment.Some? { PlainClean(s.deployment.value); }
    if s.caFile.Some? {
      CaPathPlain(s.caFile.value);
      PlainClean(s.caFile.value);
    }
    if s.hotPoll.Some? { DecimalClean(s.hotPoll.value); }
    if s.resync.Some? { DecimalClean(s.resync.value); }
  }

  lemma SlotsClean(s: Settings, i: nat)
    requires Renderable(s) && i < |Slots(s)| && Slots(s)[i].raw.Some?
    ensures CleanRaw(Slots(s)[i].raw.value)
  {
    hide CleanRaw, Quoted, Decimal, Flag, Acceptable, CaPath, DeploymentText;
    QuotedClean(s.panel);
    QuotedClean(s.host);
    QuotedClean(s.username);
    QuotedClean(s.password);
    DecimalClean(s.port);
    DecimalClean(s.meshPriority);
    FlagPlain(s.tls);
    FlagPlain(s.sceneBridge);
    ConstantsClean();
    OptionalClean(s);
  }

  lemma FieldClean(k: Key, raw: string)
    requires CleanRaw(raw)
    ensures Clean(Field(Name(k), raw))
  {
    hide Name;
    NameShape(k);
  }

  predicate Has(m: map<string, string>, k: Key, value: string) { Name(k) in m && m[Name(k)] == value }

  predicate HasExactly(m: map<string, string>, k: Key, value: Option<string>) {
    if value.Some? then Has(m, k, value.value) else Name(k) !in m
  }

  predicate OnlyKeys(m: map<string, string>, slots: seq<Slot>) {
    forall name :: name in m ==> exists i :: 0 <= i < |slots| && slots[i].raw.Some? && Name(slots[i].key) == name
  }

  /** What reading a rendered slot should give: its value unquoted, or no such key. */
  function Meaning(slot: Slot): Option<string> { if slot.raw.Some? then Some(Unquote(slot.raw.value)) else None }

  /** Reading the rendered file gives every slot's value, and nothing that is not a slot. */
  lemma RenderedReads(s: Settings)
    requires Renderable(s)
    ensures var m := Parse(Text(Fields(Slots(s))));
            OnlyKeys(m, Slots(s))
            && forall i :: 0 <= i < |Slots(s)| && Slots(s)[i].raw.Some? ==>
                 HasExactly(m, Slots(s)[i].key, Meaning(Slots(s)[i]))
  {
    hide Slots, Name, Unquote, Clean, Split, Text, Acceptable, CleanRaw;
    var slots := Slots(s);
    var fields := Fields(slots);
    SlotsDistinct(s);
    FieldsFromSlots(slots);
    forall f | f in fields ensures Clean(f) {
      var i :| 0 <= i < |slots| && slots[i].raw.Some? && f == Field(Name(slots[i].key), slots[i].raw.value);
      SlotsClean(s, i);
      FieldClean(slots[i].key, slots[i].raw.value);
    }
    ParseFields(map[], fields);
    FoldIs(map[], fields);
  }

  lemma AbsentSlot(s: Settings, m: map<string, string>, i: nat)
    requires OnlyKeys(m, Slots(s)) && i < |Slots(s)| && Slots(s)[i].raw.None?
    ensures Name(Slots(s)[i].key) !in m
  {
    hide Slots, Name;
    SlotsDistinct(s);
    var slots := Slots(s);
    if Name(slots[i].key) in m {
      var j :| 0 <= j < |slots| && slots[j].raw.Some? && Name(slots[j].key) == Name(slots[i].key);
      if slots[i].key != slots[j].key { NamesDiffer(slots[i].key, slots[j].key); }
    }
  }

  /** Every slot reads back as what it means. */
  lemma SlotReads(s: Settings, i: nat)
    requires Renderable(s) && i < |Slots(s)|
    ensures HasExactly(Parse(Text(Fields(Slots(s)))), Slots(s)[i].key, Meaning(Slots(s)[i]))
  {
    hide Slots, Name, Unquote, Parse, Text, Fields, Acceptable;
    RenderedReads(s);
    if Slots(s)[i].raw.None? { AbsentSlot(s, Parse(Text(Fields(Slots(s)))), i); }
  }

  /** An unquoted value is read as it stands. */
  lemma PlainReads(raw: string)
    requires raw == "" || raw[0] != '"'
    ensures Unquote(raw) == raw
  {
  }

  lemma MeaningsOfStrings(s: Settings)
    requires Renderable(s)
    ensures Unquote(Quoted(s.panel)) == s.panel && Unquote(Quoted(s.host)) == s.host
    ensures Unquote(Quoted(s.username)) == s.username && Unquote(Quoted(s.password)) == s.password
  {
    hide Unquote, Escaped, Acceptable;
    QuoteRoundTrip(s.panel);
    QuoteRoundTrip(s.host);
    QuoteRoundTrip(s.username);
    QuoteRoundTrip(s.password);
  }

  lemma MeaningsOfOptions(s: Settings)
    requires Renderable(s)
    ensures Meaning(Slot(DeploymentId, s.deployment)) == s.deployment && Meaning(Slot(TlsCaFile, s.caFile)) == s.caFile
    ensures Meaning(Slot(HotPoll, DecimalOf(s.hotPoll))) == DecimalOf(s.hotPoll)
    ensures Meaning(Slot(Resync, DecimalOf(s.resync))) == DecimalOf(s.resync)
  {
    hide Unquote, Decimal, Acceptable, CaPath, Plain;
    if s.deployment.Some? { PlainReads(s.deployment.value); }
    if s.caFile.Some? {
      CaPathPlain(s.caFile.value);
      PlainReads(s.caFile.value);
    }
    if s.hotPoll.Some? { DecimalClean(s.hotPoll.value); }
    if s.resync.Some? { DecimalClean(s.resync.value); }
  }

  /** Every key of the file, and its value, back from the settings it was rendered from. */
  ghost predicate ReadsBack(m: map<string, string>, s: Settings) {
    && Has(m, Panel, s.panel) && Has(m, Host, s.host) && Has(m, Port, Decimal(s.port))
    && Has(m, Username, s.username) && Has(m, Password, s.password) && Has(m, TlsEnabled, Flag(s.tls))
    && HasExactly(m, DeploymentId, s.deployment) && HasExactly(m, TlsCaFile, s.caFile)
    && Has(m, RetainedTopics, RETAINED_TOPICS_FILE) && Has(m, MeshPriority, Decimal(s.meshPriority))
    && Has(m, SceneBridge, Flag(s.sceneBridge)) && Has(m, LogLevel, "INFO")
    && HasExactly(m, HotPoll, DecimalOf(s.hotPoll)) && HasExactly(m, Resync, DecimalOf(s.resync))
    && (forall name :: name in m ==> exists k: Key :: Name(k) == name)
  }

  lemma SlotsAre(s: Settings)
    ensures var slots := Slots(s);
            && |slots| == 14
            && slots[0] == Slot(Panel, Some(Quoted(s.panel))) && slots[1] == Slot(Host, Some(Quoted(s.host)))
            && slots[2] == Slot(Port, Some(Decimal(s.port))) && slots[3] == Slot(Username, Some(Quoted(s.username)))
            && slots[4] == Slot(Password, Some(Quoted(s.password))) && slots[5] == Slot(TlsEnabled, Some(Flag(s.tls)))
            && slots[6] == Slot(DeploymentId, s.deployment) && slots[7] == Slot(TlsCaFile, s.caFile)
            && slots[8] == Slot(RetainedTopics, Some(RETAINED_TOPICS_FILE))
               && slots[9] == Slot(MeshPriority, Some(Decimal(s.meshPriority)))
            && slots[10] == Slot(SceneBridge, Some(Flag(s.sceneBridge)))
               && slots[11] == Slot(HotPoll, DecimalOf(s.hotPoll))
            && slots[12] == Slot(Resync, DecimalOf(s.resync)) && slots[13] == Slot(LogLevel, Some("INFO"))
  {
    hide Quoted, Decimal, DecimalOf, Flag;
  }

  /** Whatever settings render, reading the file gives back exactly their keys and original values;
      settings with a refused character, or an impossible option, render nothing. */
  lemma EnvRoundTrip(s: Settings)
    ensures Render(s).Ok? <==> Renderable(s)
    ensures Render(s).Ok? ==> ReadsBack(Parse(Render(s).value), s)
  {
    hide Slots, Name, Unquote, Parse, Text, Fields, Acceptable, Quoted, Decimal, Flag, DecimalOf;
    if Renderable(s) {
      var m := Parse(Render(s).value);
      SlotsAre(s);
      MeaningsOfStrings(s);
      MeaningsOfOptions(s);
      DecimalClean(s.port);
      DecimalClean(s.meshPriority);
      FlagPlain(s.tls);
      FlagPlain(s.sceneBridge);
      PlainReads(RETAINED_TOPICS_FILE);
      PlainReads("INFO");
      forall i | 0 <= i < 14 ensures HasExactly(m, Slots(s)[i].key, Meaning(Slots(s)[i])) { SlotReads(s, i); }
      RenderedReads(s);
    }
  }
}
