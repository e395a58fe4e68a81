/** The HTTP/3 control stream: SETTINGS (section 7.2.4 of RFC 9114) written and read back, and the frame loop of
    the receiver, in whatever pieces the bytes arrive. */
module ControlStream {
  import opened Types
  import opened Frames
  import Varint

  const SETTINGS_ENTRIES_LIMIT: nat := 64
  const SETTING_QPACK_MAX_TABLE_CAPACITY: nat := 0x01
  const SETTING_MAX_FIELD_SECTION_SIZE: nat := 0x06
  const SETTING_QPACK_BLOCKED_STREAMS: nat := 0x07
  const SETTING_ENABLE_CONNECT_PROTOCOL: nat := 0x08
  const SETTING_H3_DATAGRAM: nat := 0x33
  const SETTING_WT_INITIAL_MAX_DATA: nat := 0x2B61
  const SETTING_WT_INITIAL_MAX_STREAMS_UNI: nat := 0x2B64
  const SETTING_WT_INITIAL_MAX_STREAMS_BIDI: nat := 0x2B65
  const SETTING_WT_ENABLED: nat := 0x2C7C_F000
  const ERR_H3_SETTINGS_ERROR: ErrorCode := 0x0109
  const ERR_H3_MISSING_SETTINGS: ErrorCode := 0x010A
  const ERR_H3_ID_ERROR: ErrorCode := 0x0108
  const ERR_WT_REQUIREMENTS_NOT_MET: ErrorCode := 0x212C_0D48

  /** The settings with a field of their own, in the order they are written. */
  const KNOWN_ORDER: seq<nat> := [SETTING_QPACK_MAX_TABLE_CAPACITY, SETTING_MAX_FIELD_SECTION_SIZE,
                                 SETTING_QPACK_BLOCKED_STREAMS, SETTING_ENABLE_CONNECT_PROTOCOL, SETTING_H3_DATAGRAM,
                                 SETTING_WT_INITIAL_MAX_DATA, SETTING_WT_INITIAL_MAX_STREAMS_UNI,
                                 SETTING_WT_INITIAL_MAX_STREAMS_BIDI, SETTING_WT_ENABLED]

  predicate IsReserved(id: nat) {
    2 <= id <= 5
  }

  datatype Entry = Entry(id: nat, value: nat)

  /** The known settings that are present, by identifier, and the unknown ones in order. */
  datatype Settings = Settings(known: map<nat, nat>, unknown: seq<Entry>)

  const NO_SETTINGS: Settings := Settings(map[], [])

  // ----- writing

  function KnownEntries(known: map<nat, nat>, order: seq<nat>): seq<Entry> {
    if order == [] then []
    else (if order[0] in known then [Entry(order[0], known[order[0]])] else []) + KnownEntries(known, order[1..])
  }

  function Entries(s: Settings): seq<Entry> {
    KnownEntries(s.known, KNOWN_ORDER) + s.unknown
  }

  function EncodeEntries(entries: seq<Entry>): Option<Bytes> {
    if entries == [] then Some([])
    else
      match (WriteHead(entries[0].id, entries[0].value), EncodeEntries(entries[1..]))
      case (Some(a), Some(b)) => Some(a + b)
      case _ => None
  }

  function EncodeSettings(s: Settings): Option<Bytes> {
    EncodeEntries(Entries(s))
  }

  // ----- reading

  datatype SettingsResult = SettingsError(code: ErrorCode) | SettingsRead(settings: Settings)

  /** Store one setting; a reserved or repeated identifier is refused. */
  function Store(s: Settings, e: Entry): SettingsResult {
    if IsReserved(e.id) then SettingsError(ERR_H3_SETTINGS_ERROR)
    else if e.id in KNOWN_ORDER then
      if e.id in s.known then SettingsError(ERR_H3_SETTINGS_ERROR)
      else SettingsRead(s.(known := s.known[e.id := e.value]))
    else if exists i :: 0 <= i < |s.unknown| && s.unknown[i].id == e.id then SettingsError(ERR_H3_SETTINGS_ERROR)
    else SettingsRead(s.(unknown := s.unknown + [e]))
  }

  function ParseEntries(bytes: Bytes, s: Settings, count: nat): SettingsResult
    decreases |bytes|
  {
    if bytes == [] then SettingsRead(s)
    else if count >= SETTINGS_ENTRIES_LIMIT then SettingsError(ERR_H3_SETTINGS_ERROR)
    else
      var h := ReadHead(bytes);
      if h.NoHead? then SettingsError(ERR_H3_FRAME_ERROR)
      else
        match Store(s, Entry(h.kind, h.length))
        case SettingsError(code) => SettingsError(code)
        case SettingsRead(t) => ParseEntries(bytes[h.size..], t, count + 1)
  }

  function ParseSettings(bytes: Bytes): SettingsResult {
    ParseEntries(bytes, NO_SETTINGS, 0)
  }

  // ----- reading inverts writing

  function StoreAll(s: Settings, entries: seq<Entry>): SettingsResult
    decreases |entries|
  {
    if entries == [] then SettingsRead(s)
    else
      match Store(s, entries[0])
      case SettingsError(code) => SettingsError(code)
      case SettingsRead(t) => StoreAll(t, entries[1..])
  }

  lemma {:induction false} ParseEncoded(entries: seq<Entry>, s: Settings, count: nat)
    requires EncodeEntries(entries).Some? && StoreAll(s, entries).SettingsRead? && count + |entries| <= SETTINGS_ENTRIES_LIMIT
    ensures ParseEntries(EncodeEntries(entries).value, s, count) == StoreAll(s, entries)
    decreases |entries|
  {
    hide Store, WriteHead, ReadHead;
    if entries != [] {
      var head := WriteHead(entries[0].id, entries[0].value).value;
      var rest := EncodeEntries(entries[1..]).value;
      HeadRoundTrip(entries[0].id, entries[0].value, rest);
      assert (head + rest)[|head|..] == rest;
      assert Entry(entries[0].id, entries[0].value) == entries[0];
      ParseEncoded(entries[1..], Store(s, entries[0]).settings, count + 1);
    }
  }

  /** Settings this code could have written: known fields under their identifiers, unknown ones under distinct
      identifiers that are neither known nor reserved, and no more than the receiver takes. */
  ghost predicate Writable(s: Settings) {
    && (forall id :: id in s.known ==> id in KNOWN_ORDER)
    && (forall i :: 0 <= i < |s.unknown| ==> s.unknown[i].id !in KNOWN_ORDER && !IsReserved(s.unknown[i].id))
    && (forall i, j :: 0 <= i < j < |s.unknown| ==> s.unknown[i].id != s.unknown[j].id)
    && |Entries(s)| <= SETTINGS_ENTRIES_LIMIT && EncodeSettings(s).Some?
  }

  lemma {:induction false} StoreAppend(s: Settings, a: seq<Entry>, b: seq<Entry>)
    ensures StoreAll(s, a + b) ==
            match StoreAll(s, a) case SettingsError(code) => SettingsError(code) case SettingsRead(t) => StoreAll(t, b)
    decreases |a|
  {
    hide Store;
    if a == [] {
      assert a + b == b;
    } else {
      assert (a + b)[1..] == a[1..] + b && (a + b)[0] == a[0];
      if Store(s, a[0]).SettingsRead? {
        StoreAppend(Store(s, a[0]).settings, a[1..], b);
      }
    }
  }

  ghost predicate Distinct(order: seq<nat>) {
    forall i, j :: 0 <= i < j < |order| ==> order[i] != order[j]
  }

  /** The known settings of a list of identifiers. */
  function Restrict(known: map<nat, nat>, ids: set<nat>): map<nat, nat> {
    map id | id in known && id in ids :: known[id]
  }

  function Ids(order: seq<nat>): set<nat> {
    set i | 0 <= i < |order| :: order[i]
  }

  lemma {:induction false} StoreKnown(known: map<nat, nat>, order: seq<nat>, done: map<nat, nat>)
    requires Distinct(order) && (forall i :: 0 <= i < |order| ==> order[i] in KNOWN_ORDER && order[i] !in done)
    ensures StoreAll(Settings(done, []), KnownEntries(known, order)) == SettingsRead(Settings(done + Restrict(known, Ids(order)), []))
    decreases |order|
  {
    if order == [] {
      assert done + Restrict(known, Ids(order)) == done;
    } else {
      var id := order[0];
      KnownNotReserved(id);
      assert forall i :: 1 <= i < |order| ==> order[1..][i - 1] == order[i];
      assert forall i :: 0 <= i < |order| - 1 ==> order[1..][i] == order[i + 1];
      var next := if id in known then done[id := known[id]] else done;
      StoreKnown(known, order[1..], next);
      KeepKnown(known, order, done);
      hide Restrict, Ids;
      if id in known {
        var e := Entry(id, known[id]);
        assert KnownEntries(known, order)[1..] == KnownEntries(known, order[1..]);
        assert Store(Settings(done, []), e) == SettingsRead(Settings(next, []));
      } else {
        assert KnownEntries(known, order) == KnownEntries(known, order[1..]);
      }
    }
  }

  lemma KeepKnown(known: map<nat, nat>, order: seq<nat>, done: map<nat, nat>)
    requires order != [] && order[0] !in done
    ensures var id := order[0];
            var next := if id in known then done[id := known[id]] else done;
            order[0] !in order[1..] ==>
              next + Restrict(known, Ids(order[1..])) == done + Restrict(known, Ids(order))
  {
    var id := order[0];
    var tail := order[1..];
    assert Ids(order) == {id} + Ids(tail) by {
      forall k | k in Ids(order) ensures k in {id} + Ids(tail) {
        var i :| 0 <= i < |order| && order[i] == k;
        if i > 0 {
          assert tail[i - 1] == k;
        }
      }
      forall k | k in Ids(tail) ensures k in Ids(order) {
        var i :| 0 <= i < |tail| && tail[i] == k;
        assert order[i + 1] == k;
      }
      assert order[0] in Ids(order);
    }
    if id !in tail {
      assert id !in Ids(tail);
    }
  }

  lemma KnownNotReserved(id: nat)
    requires id in KNOWN_ORDER
    ensures !IsReserved(id)
  {
  }

  lemma {:induction false} StoreUnknown(s: Settings, entries: seq<Entry>)
    requires forall i :: 0 <= i < |entries| ==> entries[i].id !in KNOWN_ORDER && !IsReserved(entries[i].id)
    requires forall i, j :: 0 <= i < j < |entries| ==> entries[i].id != entries[j].id
    requires forall i, j :: 0 <= i < |s.unknown| && 0 <= j < |entries| ==> s.unknown[i].id != entries[j].id
    ensures StoreAll(s, entries) == SettingsRead(s.(unknown := s.unknown + entries))
    decreases |entries|
  {
    if entries == [] {
      assert s.unknown + entries == s.unknown;
    } else {
      var t := s.(unknown := s.unknown + [entries[0]]);
      assert Store(s, entries[0]) == SettingsRead(t);
      assert forall i :: 0 <= i < |entries| - 1 ==> entries[1..][i] == entries[i + 1];
      StoreUnknown(t, entries[1..]);
      assert s.unknown + [entries[0]] + entries[1..] == s.unknown + entries;
    }
  }

  /** Section 7.2.4 of RFC 9114: the receiver reads back exactly the settings that were written. */
  lemma SettingsRoundTrip(s: Settings)
    requires Writable(s)
    ensures ParseSettings(EncodeSettings(s).value) == SettingsRead(s)
  {
    StoreWritten(s);
    ParseEncoded(Entries(s), NO_SETTINGS, 0);
  }

  lemma StoreWritten(s: Settings)
    requires Writable(s)
    ensures StoreAll(NO_SETTINGS, Entries(s)) == SettingsRead(s)
  {
    hide EncodeEntries;
    OrderDistinct();
    StoreKnown(s.known, KNOWN_ORDER, map[]);
    AllKnown(s.known);
    hide KnownEntries, Restrict, Ids;
    StoreAppend(NO_SETTINGS, KnownEntries(s.known, KNOWN_ORDER), s.unknown);
    StoreUnknown(Settings(s.known, []), s.unknown);
    assert [] + s.unknown == s.unknown;
  }

  lemma OrderDistinct()
    ensures Distinct(KNOWN_ORDER)
  {
  }

  lemma AllKnown(known: map<nat, nat>)
    requires forall id :: id in known ==> id in KNOWN_ORDER
    ensures map[] + Restrict(known, Ids(KNOWN_ORDER)) == known
  {
    forall id | id in known ensures id in Ids(KNOWN_ORDER) {
      var i :| 0 <= i < |KNOWN_ORDER| && KNOWN_ORDER[i] == id;
    }
  }

  // ----- the frames of the control stream

  datatype ControlEvent = GoawayReceived | SettingsReceived(settings: Settings)

  /** The receiving side of the peer's control stream, past its stream type. */
  datatype Control = Control(
    isClient: bool,
    datagramsOk: bool,
    buffer: Bytes,
    settingsSeen: bool,
    maxPushId: Option<nat>)

  datatype ControlResult = ControlError(code: ErrorCode) | ControlRead(st: Control, events: seq<ControlEvent>)

  /** The requirements on the peer's settings; `datagramsOk` tells whether QUIC can carry datagrams. */
  function CheckSettings(s: Settings, isClient: bool, datagramsOk: bool): Option<ErrorCode> {
    if SETTING_ENABLE_CONNECT_PROTOCOL in s.known && s.known[SETTING_ENABLE_CONNECT_PROTOCOL] != 1 then
      Some(ERR_H3_SETTINGS_ERROR)
    else if !datagramsOk && SETTING_H3_DATAGRAM in s.known && s.known[SETTING_H3_DATAGRAM] == 1 then
      Some(ERR_H3_SETTINGS_ERROR)
    else if isClient && SETTING_WT_ENABLED in s.known && s.known[SETTING_WT_ENABLED] > 1 then Some(ERR_H3_SETTINGS_ERROR)
    else if SETTING_WT_ENABLED !in s.known || s.known[SETTING_WT_ENABLED] == 0 then Some(ERR_WT_REQUIREMENTS_NOT_MET)
    else None
  }

  function HandleSettings(st: Control, payload: Bytes): ControlResult {
    if st.settingsSeen then ControlError(ERR_H3_FRAME_UNEXPECTED)
    else
      match ParseSettings(payload)
      case SettingsError(code) => ControlError(code)
      case SettingsRead(s) =>
        match CheckSettings(s, st.isClient, st.datagramsOk)
        case Some(code) => ControlError(code)
        case None => ControlRead(st.(settingsSeen := true), [SettingsReceived(s)])
  }

  function HandlePushId(st: Control, payload: Bytes): ControlResult {
    match Varint.Read(payload)
    case Incomplete => ControlError(ERR_H3_FRAME_ERROR)
    case Got(id, n) =>
      if n < |payload| then ControlError(ERR_H3_FRAME_ERROR)
      else if st.maxPushId.Some? && st.maxPushId.value > id then ControlError(ERR_H3_ID_ERROR)
      else ControlRead(st.(maxPushId := Some(id)), [])
  }

  function HandleControlFrame(st: Control, kind: nat, payload: Bytes): ControlResult {
    if kind != FRAME_SETTINGS && !st.settingsSeen then ControlError(ERR_H3_MISSING_SETTINGS)
    else if kind == FRAME_CANCEL_PUSH then
      if Varint.Read(payload).Got? && Varint.Read(payload).size == |payload| then ControlError(ERR_H3_ID_ERROR)
      else ControlError(ERR_H3_FRAME_ERROR)
    else if kind in {FRAME_DATA, FRAME_HEADERS, FRAME_PUSH_PROMISE, FRAME_CONTINUATION, FRAME_PING, FRAME_PRIORITY,
                     FRAME_WINDOW_UPDATE} then ControlError(ERR_H3_FRAME_UNEXPECTED)
    else if kind == FRAME_GOAWAY then ControlRead(st, [GoawayReceived])
    else if kind == FRAME_MAX_PUSH_ID then
      if st.isClient then ControlError(ERR_H3_FRAME_UNEXPECTED) else HandlePushId(st, payload)
    else if kind == FRAME_SETTINGS then HandleSettings(st, payload)
    else if kind == FRAME_WT_STREAM then ControlError(ERR_H3_FRAME_ERROR)
    else ControlRead(st, [])
  }

  function Follow(events: seq<ControlEvent>, r: ControlResult): ControlResult {
    if r.ControlError? then r else r.(events := events + r.events)
  }

  predicate FrameArrived(buffer: Bytes) {
    var h := ReadHead(buffer);
    h.Head? && h.size + h.length <= |buffer|
  }

  /** Take the complete frame at the front of the buffer. */
  function TakeFrame(st: Control): (r: ControlResult)
    requires FrameArrived(st.buffer)
    ensures r.ControlRead? ==> r.st.buffer == st.buffer[ReadHead(st.buffer).size + ReadHead(st.buffer).length..]
  {
    var h := ReadHead(st.buffer);
    var n := h.size + h.length;
    match HandleControlFrame(st.(buffer := []), h.kind, st.buffer[h.size..n])
    case ControlError(code) => ControlError(code)
    case ControlRead(t, events) => ControlRead(t.(buffer := st.buffer[n..]), events)
  }

  /** Take every complete frame from the front of the buffer. */
  function ParseControl(st: Control): ControlResult
    decreases |st.buffer|
  {
    var h := ReadHead(st.buffer);
    if h.NoHead? then ControlRead(st, [])
    else if h.kind == FRAME_DATA then ControlError(ERR_H3_FRAME_UNEXPECTED)
    else if h.kind != FRAME_HEADERS && h.length > CONTROL_FRAME_SIZE_LIMIT then ControlError(ERR_H3_FRAME_ERROR)
    else if !FrameArrived(st.buffer) then ControlRead(st, [])
    else
      match TakeFrame(st)
      case ControlError(code) => ControlError(code)
      case ControlRead(t, events) => Follow(events, ParseControl(t))
  }

  function FeedControl(st: Control, data: Bytes): ControlResult {
    ParseControl(st.(buffer := st.buffer + data))
  }

  function FeedAllControl(st: Control, chunks: seq<Bytes>): ControlResult
    decreases |chunks|
  {
    if chunks == [] then ControlRead(st, [])
    else
      match FeedControl(st, chunks[0])
      case ControlError(code) => ControlError(code)
      case ControlRead(t, events) => Follow(events, FeedAllControl(t, chunks[1..]))
  }

  lemma FollowTwice(a: seq<ControlEvent>, b: seq<ControlEvent>, r: ControlResult)
    ensures Follow(a, Follow(b, r)) == Follow(a + b, r) && Follow([], r) == r
  {
    assert r.ControlRead? ==> a + (b + r.events) == a + b + r.events && [] + r.events == r.events;
  }

  /** A frame that is not complete is left alone, whatever follows it. */
  lemma StuckControl(st: Control, more: Bytes)
    requires !FrameArrived(st.buffer) && ParseControl(st.(buffer := st.buffer + more)).ControlRead?
    ensures ParseControl(st) == ControlRead(st, [])
  {
    hide ReadHead, TakeFrame;
    if ReadHead(st.buffer).Head? {
      HeadPrefix(st.buffer, more);
    }
  }

  /** A complete frame is taken whatever follows it. */
  lemma SameFrame(st: Control, more: Bytes)
    requires FrameArrived(st.buffer)
    ensures FrameArrived(st.buffer + more)
    ensures var r := TakeFrame(st);
            TakeFrame(st.(buffer := st.buffer + more)) ==
            if r.ControlError? then r else r.(st := r.st.(buffer := r.st.buffer + more))
  {
    hide ReadHead, HandleControlFrame;
    var h := ReadHead(st.buffer);
    var n := h.size + h.length;
    var whole := st.(buffer := st.buffer + more);
    HeadPrefix(st.buffer, more);
    assert whole.buffer[n..] == st.buffer[n..] + more;
    assert whole.buffer[h.size..n] == st.buffer[h.size..n];
  }

  lemma FirstControl(st: Control, more: Bytes)
    requires FrameArrived(st.buffer) && ParseControl(st.(buffer := st.buffer + more)).ControlRead?
    ensures TakeFrame(st).ControlRead?
    ensures var r := TakeFrame(st);
            && ParseControl(st) == Follow(r.events, ParseControl(r.st))
            && ParseControl(st.(buffer := st.buffer + more))
               == Follow(r.events, ParseControl(r.st.(buffer := r.st.buffer + more)))
  {
    SameFrame(st, more);
    HeadPrefix(st.buffer, more);
    hide ReadHead, TakeFrame;
  }

  lemma {:induction false} ControlSplit(st: Control, more: Bytes)
    requires ParseControl(st.(buffer := st.buffer + more)).ControlRead?
    ensures var first := ParseControl(st);
            && first.ControlRead?
            && ParseControl(st.(buffer := st.buffer + more))
               == Follow(first.events, ParseControl(first.st.(buffer := first.st.buffer + more)))
    decreases |st.buffer|
  {
    hide ReadHead, TakeFrame, ParseControl;
    if !FrameArrived(st.buffer) {
      StuckControl(st, more);
      FollowTwice([], [], ParseControl(st.(buffer := st.buffer + more)));
    } else {
      FirstControl(st, more);
      var r := TakeFrame(st);
      ControlSplit(r.st, more);
      var first := ParseControl(r.st);
      FollowTwice(r.events, first.events, ParseControl(first.st.(buffer := first.st.buffer + more)));
    }
  }

  /** The control stream does not care about chunks: error-free input gives the same events and the same state
      however it is cut. */
  lemma {:induction false} ControlChunking(st: Control, chunks: seq<Bytes>)
    requires chunks != [] && FeedControl(st, Join(chunks)).ControlRead?
    ensures FeedAllControl(st, chunks) == FeedControl(st, Join(chunks))
    decreases |chunks|
  {
    hide ParseControl;
    var head := st.(buffer := st.buffer + chunks[0]);
    var rest := Join(chunks[1..]);
    assert st.buffer + Join(chunks) == head.buffer + rest;
    ControlSplit(head, rest);
    var first := ParseControl(head);
    if chunks[1..] == [] {
      assert first.st.buffer + rest == first.st.buffer && head.buffer + rest == head.buffer;
      assert FeedAllControl(first.st, chunks[1..]) == ControlRead(first.st, []);
    } else {
      ControlChunking(first.st, chunks[1..]);
    }
  }

  // ----- the bytes a local control stream starts with

  const STREAM_TYPE_CONTROL: Byte := 0x00

  /** The control stream as bind_local_streams starts it: the stream type, then one SETTINGS frame. */
  function ControlBytes(s: Settings): Option<Bytes> {
    match EncodeSettings(s)
    case None => None
    case Some(payload) =>
      match WriteHead(FRAME_SETTINGS, |payload|)
      case None => None
      case Some(head) => Some([STREAM_TYPE_CONTROL] + head + payload)
  }

  function NewControl(isClient: bool, datagramsOk: bool): Control {
    Control(isClient, datagramsOk, [], false, None)
  }

  lemma {:induction false} EncodedSize(entries: seq<Entry>)
    requires EncodeEntries(entries).Some?
    ensures |EncodeEntries(entries).value| <= 16 * |entries|
  {
    hide Varint.BigEndian;
    if entries != [] {
      EncodedSize(entries[1..]);
    }
  }

  /** Settings within the entry limit make a frame within the frame limit. */
  lemma ControlBytesFit(s: Settings)
    requires Writable(s)
    ensures |EncodeSettings(s).value| <= CONTROL_FRAME_SIZE_LIMIT && ControlBytes(s).Some?
  {
    EncodedSize(Entries(s));
    hide EncodeEntries, Entries, Varint.BigEndian;
  }

  lemma SettingsFrame(s: Settings, isClient: bool, datagramsOk: bool)
    requires Writable(s) && ControlBytes(s).Some? && |EncodeSettings(s).value| <= CONTROL_FRAME_SIZE_LIMIT
    requires CheckSettings(s, isClient, datagramsOk).None?
    ensures var st := NewControl(isClient, datagramsOk);
            FeedControl(st, ControlBytes(s).value[1..]) == ControlRead(st.(settingsSeen := true), [SettingsReceived(s)])
  {
    hide CheckSettings, EncodeSettings, ParseSettings, WriteHead, ReadHead;
    var st := NewControl(isClient, datagramsOk);
    var payload := EncodeSettings(s).value;
    var head := WriteHead(FRAME_SETTINGS, |payload|).value;
    SettingsRoundTrip(s);
    HeadRoundTrip(FRAME_SETTINGS, |payload|, payload);
    var bytes := head + payload;
    assert ControlBytes(s).value[1..] == bytes && [] + bytes == bytes;
    assert bytes[|head|..|bytes|] == payload && bytes[|bytes|..] == [];
    EmptyControl(st.(settingsSeen := true));
    assert HandleControlFrame(st, FRAME_SETTINGS, payload) == ControlRead(st.(settingsSeen := true), [SettingsReceived(s)]);
    assert ParseControl(st.(buffer := bytes))
        == Follow([SettingsReceived(s)], ParseControl(st.(settingsSeen := true)));
  }

  lemma EmptyControl(st: Control)
    requires st.buffer == []
    ensures ParseControl(st) == ControlRead(st, [])
  {
  }

  /** The peer, after the byte that tells the stream type, reads exactly one SETTINGS event with the settings
      that were encoded - in whatever pieces the bytes arrive. */
  lemma LocalStreamsRead(s: Settings, chunks: seq<Bytes>, isClient: bool, datagramsOk: bool)
    requires Writable(s) && CheckSettings(s, isClient, datagramsOk).None?
    requires Some([STREAM_TYPE_CONTROL] + Join(chunks)) == ControlBytes(s)
    ensures var st := NewControl(isClient, datagramsOk);
            FeedAllControl(st, chunks) == ControlRead(st.(settingsSeen := true), [SettingsReceived(s)])
  {
    hide CheckSettings, EncodeSettings, ParseControl, Writable;
    ControlBytesFit(s);
    SettingsFrame(s, isClient, datagramsOk);
    assert ControlBytes(s).value[1..] == Join(chunks);
    if chunks == [] {
      HeadNotEmpty(s);
    } else {
      ControlChunking(NewControl(isClient, datagramsOk), chunks);
    }
  }

  lemma HeadNotEmpty(s: Settings)
    requires ControlBytes(s).Some?
    ensures |ControlBytes(s).value| > 1
  {
    hide WriteHead, ReadHead, EncodeSettings;
    var payload := EncodeSettings(s).value;
    HeadRoundTrip(FRAME_SETTINGS, |payload|, []);
  }
}
