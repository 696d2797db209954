// The check directive: parsing of reuse and keepalive, defaults, and the bounds between
// parameters (configuration/ngx_healthcheck_config.c, lines 200-423).

module Configuration {
  import opened Time
  import opened HealthCounter
  import opened Protocol

  const INTERVAL_MIN: U64 := 100
  const TIMEOUT_DEFAULT_MAX: U64 := 5000
  const REHANDSHAKE_MIN: U64 := 30000
  const REHANDSHAKE_MAX: U64 := U64_MAX / 2
  const KEEPINTVL_DEFAULT: U64 := 1
  const KEEPCNT_DEFAULT: U64 := 3
  const KEEPALIVE_TIME_MAX: U64 := 32767
  const KEEPCNT_MAX: U64 := 127

  // nginx's own readers of a time in seconds and of a decimal number; None is their error.
  datatype Readers = Readers(seconds: string -> Option<nat>, number: string -> Option<nat>)

  function Lower(c: char): char { if 'A' <= c <= 'Z' then c - 'A' + 'a' else c }

  predicate SameWord(a: string, b: string) {
    |a| == |b| && forall k :: 0 <= k < |a| ==> Lower(a[k]) == Lower(b[k])
  }

  // How long a kept connection may live before a new handshake.
  datatype Handshake = Off | Default | Every(ms: U64)

  predicate HandshakeOk(h: Handshake) {
    h.Every? ==> 1000 <= h.ms <= REHANDSHAKE_MAX
  }

  function ParseHandshake(r: Readers, value: string): (h: Option<Handshake>)
    ensures h.Some? ==> HandshakeOk(h.value)
    ensures h == Some(Off) <==> SameWord(value, "off")
    ensures h == Some(Default) <==> value == "" || SameWord(value, "on")
    ensures forall ms: U64 :: h == Some(Every(ms)) <==>
      && value != "" && !SameWord(value, "off") && !SameWord(value, "on") && 1000 <= ms <= U64_MAX / 2
      && r.seconds(value).Some? && ms == r.seconds(value).value * 1000
  {
    if SameWord(value, "off") then Some(Off)
    else if value == "" || SameWord(value, "on") then Some(Default)
    else
      match r.seconds(value)
      case None => None
      case Some(s) => if s == 0 || s > REHANDSHAKE_MAX / 1000 then None else Some(Every(s * 1000))
  }

  // ---- keepalive=off|rehandshake[:idle[:intvl[:cnt]]] ----

  function FirstColon(s: string): (k: nat)
    ensures k <= |s| && (k < |s| ==> s[k] == ':') && forall i :: 0 <= i < k ==> s[i] != ':'
  {
    if s == "" then 0 else if s[0] == ':' then 0 else 1 + FirstColon(s[1..])
  }

  function Split(s: string): (fields: seq<string>)
    ensures |fields| >= 1
    decreases |s|
  {
    var k := FirstColon(s);
    if k == |s| then [s] else [s[..k]] + Split(s[k + 1..])
  }

  function Join(fields: seq<string>): string {
    if fields == [] then "" else if |fields| == 1 then fields[0] else fields[0] + ":" + Join(fields[1..])
  }

  // The fields are the parts between the colons, all of them.
  lemma {:induction false} SplitJoins(s: string)
    ensures Join(Split(s)) == s
    ensures forall k :: 0 <= k < |Split(s)| ==> ':' !in Split(s)[k]
    decreases |s|
  {
    var k := FirstColon(s);
    if k < |s| {
      SplitJoins(s[k + 1..]);
      assert Split(s)[1..] == Split(s[k + 1..]);
      assert s == s[..k] + ":" + s[k + 1..];
    }
  }

  lemma ColonAt(s: string, k: nat)
    requires k < |s| && s[k] == ':' && ':' !in s[..k]
    ensures FirstColon(s) == k
  {
    forall i | 0 <= i < k
      ensures s[i] != ':'
    {
      assert s[..k][i] == s[i];
    }
  }

  lemma {:induction false} SplitOfJoin(fields: seq<string>)
    requires fields != [] && forall k :: 0 <= k < |fields| ==> ':' !in fields[k]
    ensures Split(Join(fields)) == fields
  {
    var s := Join(fields);
    if |fields| == 1 {
      assert FirstColon(s) == |s|;
    } else {
      SplitOfJoin(fields[1..]);
      var k := |fields[0]|;
      assert s == fields[0] + ":" + Join(fields[1..]);
      hide Join;
      assert s[..k] == fields[0] && s[k] == ':' && s[k + 1..] == Join(fields[1..]);
      ColonAt(s, k);
    }
  }

  // Zero stands for an omitted value.
  datatype Keepalive = Disabled | Enabled(handshake: Handshake, idle: U64, interval: U64, count: U64)

  predicate KeepaliveOk(k: Keepalive) {
    k.Enabled? ==>
      HandshakeOk(k.handshake) && k.idle <= KEEPALIVE_TIME_MAX && k.interval <= KEEPALIVE_TIME_MAX && k.count <= KEEPCNT_MAX
  }

  // The value of an optional field, None when it is out of bounds.
  function Field(r: Readers, n: nat, field: string): (v: Option<U64>)
    ensures field == "" ==> v == Some(0)
    ensures field != "" && n == 3 ==> forall x: U64 :: v == Some(x) <==> 1 <= x <= 127 && r.number(field) == Some(x)
    ensures field != "" && n != 3 ==> forall x: U64 :: v == Some(x) <==> 1 <= x <= 32767 && r.seconds(field) == Some(x)
  {
    if field == "" then Some(0)
    else if n == 3 then
      match r.number(field)
      case None => None
      case Some(count) => if 1 <= count <= KEEPCNT_MAX then Some(count) else None
    else
      match r.seconds(field)
      case None => None
      case Some(seconds) => if 1 <= seconds <= KEEPALIVE_TIME_MAX then Some(seconds) else None
  }

  function FieldOr(r: Readers, fields: seq<string>, n: nat): Option<U64> {
    if n < |fields| then Field(r, n, fields[n]) else Some(0)
  }

  // One to four fields, every one of them valid.
  function Accept(r: Readers, fields: seq<string>): (k: Option<Keepalive>)
    ensures k.Some? ==> k.value.Enabled? && KeepaliveOk(k.value)
    ensures k.Some? ==>
      && fields != [] && ParseHandshake(r, fields[0]) == Some(k.value.handshake)
      && (if |fields| > 1 then Field(r, 1, fields[1]) == Some(k.value.idle) else k.value.idle == 0)
      && (if |fields| > 2 then Field(r, 2, fields[2]) == Some(k.value.interval) else k.value.interval == 0)
      && (if |fields| > 3 then Field(r, 3, fields[3]) == Some(k.value.count) else k.value.count == 0)
    ensures k.Some? <==> 1 <= |fields| <= 4 && ParseHandshake(r, fields[0]).Some? && forall n :: 1 <= n < |fields| ==> Field(r, n, fields[n]).Some?
  {
    if !(1 <= |fields| <= 4) then None
    else
      var handshake := ParseHandshake(r, fields[0]);
      var idle, interval, count := FieldOr(r, fields, 1), FieldOr(r, fields, 2), FieldOr(r, fields, 3);
      if handshake.None? || idle.None? || interval.None? || count.None? then None
      else Some(Enabled(handshake.value, idle.value, interval.value, count.value))
  }

  method FindColon(value: string, p: nat) returns (end: nat)
    requires p <= |value|
    ensures end == p + FirstColon(value[p..])
  {
    end := p;
    while end < |value| && value[end] != ':'
      invariant p <= end <= |value|
      invariant p + FirstColon(value[p..]) == end + FirstColon(value[end..])
    {
      assert value[end..][0] == value[end] && value[end..][1..] == value[end + 1..];
      end := end + 1;
    }
  }

  lemma SplitStep(value: string, p: nat)
    requires p <= |value|
    ensures var end := p + FirstColon(value[p..]);
      Split(value[p..]) == [value[p..end]] + if end == |value| then [] else Split(value[end + 1..])
  {
    var s := value[p..];
    var k := FirstColon(s);
    assert s[..k] == value[p..p + k];
    if k < |s| {
      assert s[k + 1..] == value[p + k + 1..];
      assert Split(s) == [s[..k]] + Split(s[k + 1..]);
    } else {
      assert s[..k] == s;
      assert Split(s) == [s] == [s] + [];
    }
  }

  // One field into its place; the fifth is an error.
  method Store(r: Readers, n: nat, field: string, got: Keepalive) returns (k: Option<Keepalive>)
    requires got.Enabled?
    ensures k.Some? <==> n <= 3 && if n == 0 then ParseHandshake(r, field).Some? else Field(r, n, field).Some?
    ensures k.Some? ==> k.value.Enabled?
    ensures k.Some? ==> k.value.handshake == if n == 0 then ParseHandshake(r, field).value else got.handshake
    ensures k.Some? ==> k.value.idle == if n == 1 then Field(r, 1, field).value else got.idle
    ensures k.Some? ==> k.value.interval == if n == 2 then Field(r, 2, field).value else got.interval
    ensures k.Some? ==> k.value.count == if n == 3 then Field(r, 3, field).value else got.count
  {
    hide ParseHandshake, Field;
    if n == 0 {
      var h := ParseHandshake(r, field);
      return if h.Some? then Some(got.(handshake := h.value)) else None;
    } else if n <= 3 {
      var v := Field(r, n, field);
      if v.None? {
        return None;
      }
      return Some(if n == 1 then got.(idle := v.value) else if n == 2 then got.(interval := v.value) else got.(count := v.value));
    } else {
      return None;
    }
  }

  // The first n fields are valid and in place, the others still omitted.
  predicate Reads(r: Readers, fields: seq<string>, n: nat, got: Keepalive) {
    && n <= |fields| && n <= 4 && got.Enabled?
    && (n > 0 ==> ParseHandshake(r, fields[0]) == Some(got.handshake))
    && Some(got.idle) == FieldOr(r, fields[..n], 1)
    && Some(got.interval) == FieldOr(r, fields[..n], 2)
    && Some(got.count) == FieldOr(r, fields[..n], 3)
  }

  lemma ReadsAll(r: Readers, fields: seq<string>, got: Keepalive)
    requires Reads(r, fields, |fields|, got) && fields != []
    ensures Accept(r, fields) == Some(got)
  {
    hide ParseHandshake, Field;
    assert fields[..|fields|] == fields;
  }

  // The source's single pass over the value, field by field.
  method ParseKeepalive(r: Readers, value: string) returns (k: Option<Keepalive>)
    ensures k == if value == "" then None else if SameWord(value, "off") then Some(Disabled) else Accept(r, Split(value))
  {
    if value == "" {
      return None;
    }
    if SameWord(value, "off") {
      return Some(Disabled);
    }
    k := ParseFields(r, value);
  }

  method ParseFields(r: Readers, value: string) returns (k: Option<Keepalive>)
    ensures k == Accept(r, Split(value))
  {
    hide Split, ParseHandshake, Field, FirstColon, FieldOr, Reads, Accept;
    var got := Enabled(Default, 0, 0, 0);
    var p: nat, n: nat := 0, 0;
    ghost var fields := Split(value);
    assert value[0..] == value && fields[0..] == fields;
    NothingRead(r, fields);
    while p <= |value|
      invariant p <= |value| + 1 && n <= |fields|
      invariant fields[n..] == if p <= |value| then Split(value[p..]) else []
      invariant Reads(r, fields, n, got)
    {
      var end := FindColon(value, p);
      SplitStep(value, p);
      assert fields[n] == fields[n..][0] && fields[n + 1..] == fields[n..][1..];
      ReadsBounds(r, fields, n, got);
      var next := Store(r, n, value[p..end], got);
      if next.None? {
        Refused(r, fields, n);
        return None;
      }
      ReadsOneMore(r, fields, n, got, next.value);
      p, n, got := end + 1, n + 1, next.value;
    }
    ReadsAll(r, fields, got);
    k := Some(got);
  }

  lemma NothingRead(r: Readers, fields: seq<string>)
    ensures Reads(r, fields, 0, Enabled(Default, 0, 0, 0))
  {
  }

  lemma ReadsBounds(r: Readers, fields: seq<string>, n: nat, got: Keepalive)
    requires Reads(r, fields, n, got)
    ensures n <= 4 && n <= |fields| && got.Enabled?
  {
  }

  lemma Refused(r: Readers, fields: seq<string>, n: nat)
    requires n < |fields|
    requires n > 3 || (if n == 0 then ParseHandshake(r, fields[0]).None? else Field(r, n, fields[n]).None?)
    ensures Accept(r, fields).None?
  {
    hide ParseHandshake, Field;
  }

  lemma ReadsOneMore(r: Readers, fields: seq<string>, n: nat, got: Keepalive, next: Keepalive)
    requires Reads(r, fields, n, got) && n < |fields| && n <= 3 && next.Enabled?
    requires if n == 0 then ParseHandshake(r, fields[0]).Some? else Field(r, n, fields[n]).Some?
    requires next.handshake == if n == 0 then ParseHandshake(r, fields[0]).value else got.handshake
    requires next.idle == if n == 1 then Field(r, 1, fields[n]).value else got.idle
    requires next.interval == if n == 2 then Field(r, 2, fields[n]).value else got.interval
    requires next.count == if n == 3 then Field(r, 3, fields[n]).value else got.count
    ensures Reads(r, fields, n + 1, next)
  {
    hide ParseHandshake, Field;
  }

  // ---- Defaults and bounds between parameters ----

  // timeout 0 stands for an omitted one.
  datatype Arguments = Arguments(tcp: bool, interval: U64, timeout: U64, reuse: Handshake, keepalive: Keepalive)

  // What the tokens of the directive can give: decimal numbers are signed 64-bit.
  predicate Parsed(a: Arguments) {
    1 <= a.interval <= INT64_MAX && a.timeout <= INT64_MAX && HandshakeOk(a.reuse) && KeepaliveOk(a.keepalive)
  }

  // rehandshake 0 stands for never.
  datatype Conf = Conf(interval: U64, timeout: U64, keepConnection: bool, rehandshake: U64, keepalive: bool,
                       idle: U64, probeInterval: U64, probeCount: U64)

  // The lifetime in milliseconds, U64_MAX when unlimited.
  function Lifetime(h: Handshake, interval: U64): U64 {
    match h
    case Off => U64_MAX
    case Default => Min(Max(REHANDSHAKE_MIN, interval * 2), REHANDSHAKE_MAX)
    case Every(ms) => ms
  }

  function KeptFor(k: Keepalive, interval: U64): U64 {
    if k.Disabled? then U64_MAX else Lifetime(k.handshake, interval)
  }

  // A keepalive idle time of that many seconds ends before the connection does.
  predicate IdleFits(idle: nat, lifetime: U64) { lifetime == U64_MAX || idle * 1000 < lifetime }

  // The bounds of an omitted idle time: one round trip per interval, within the lifetime and
  // within what the kernel takes.
  predicate DefaultIdle(idle: nat, interval: U64, lifetime: U64) {
    (idle == 0 || (idle - 1) * 1000 < interval) && IdleFits(idle, lifetime) && idle <= KEEPALIVE_TIME_MAX
  }

  function ProbeInterval(k: Keepalive): U64
    requires k.Enabled?
  {
    if k.interval != 0 then k.interval else KEEPINTVL_DEFAULT
  }

  // Exactly the keepalive settings that are accepted: an explicit idle time must fit and
  // leave room for the probe interval; an omitted one is accepted when the probe interval
  // itself would do as one.
  predicate KeepaliveAcceptable(k: Keepalive, interval: U64, lifetime: U64)
    requires k.Enabled?
  {
    if k.idle != 0 then IdleFits(k.idle, lifetime) && ProbeInterval(k) <= k.idle
    else DefaultIdle(ProbeInterval(k), interval, lifetime)
  }

  function Lasts(a: Arguments): U64
    requires Parsed(a)
  {
    Min(Lifetime(a.reuse, a.interval), KeptFor(a.keepalive, a.interval))
  }

  predicate Acceptable(a: Arguments)
    requires Parsed(a)
  {
    && INTERVAL_MIN <= a.interval && (a.timeout != 0 ==> a.timeout < a.interval)
    && (a.tcp || (a.reuse.Off? && a.keepalive.Disabled?))
    && a.interval < Lifetime(a.reuse, a.interval) && a.interval < KeptFor(a.keepalive, a.interval)
    && (a.keepalive.Enabled? ==> KeepaliveAcceptable(a.keepalive, a.interval, Lasts(a)))
  }

  // The idle time of an accepted setting: the explicit one, or the greatest allowed.
  ghost predicate IdleOf(k: Keepalive, interval: U64, lifetime: U64, idle: U64)
    requires k.Enabled?
  {
    if k.idle != 0 then idle == k.idle
    else DefaultIdle(idle, interval, lifetime) && forall other: nat :: DefaultIdle(other, interval, lifetime) ==> other <= idle
  }

  // What every later part of the module relies on.
  ghost predicate Sound(a: Arguments, c: Conf)
    requires Parsed(a)
  {
    && c.interval == a.interval && INTERVAL_MIN <= c.interval && 0 < c.timeout < c.interval
    && (a.timeout != 0 ==> c.timeout == a.timeout)
    && (a.timeout == 0 ==> c.timeout == Min(TIMEOUT_DEFAULT_MAX, c.interval - c.interval / 10))
    && (c.keepConnection <==> !a.reuse.Off? || a.keepalive.Enabled?)
    && c.rehandshake == (if Lasts(a) == U64_MAX then 0 else Lasts(a))
    && (c.rehandshake == 0 || c.rehandshake > c.interval)
    && c.keepalive == a.keepalive.Enabled?
    && (c.keepalive ==>
          && IdleOf(a.keepalive, a.interval, Lasts(a), c.idle) && IdleFits(c.idle, Lasts(a))
          && 1 <= c.probeInterval <= c.idle <= KEEPALIVE_TIME_MAX
          && c.probeInterval == (if a.keepalive.interval != 0 then a.keepalive.interval else 1)
          && 1 <= c.probeCount <= KEEPCNT_MAX && c.probeCount == if a.keepalive.count != 0 then a.keepalive.count else 3)
  }

  // No step of it can leave the 64-bit range: every value is typed.
  method FinishKeepalive(conf: Conf, k: Keepalive, lifetime: U64) returns (c: Option<Conf>)
    requires k.Enabled? && KeepaliveOk(k) && INTERVAL_MIN <= conf.interval <= INT64_MAX && conf.interval < lifetime
    ensures c.Some? <==> KeepaliveAcceptable(k, conf.interval, lifetime)
    ensures c.Some? ==> c.value == conf.(
      idle := c.value.idle,
      probeInterval := if k.interval != 0 then k.interval else 1,
      probeCount := if k.count != 0 then k.count else 3)
    ensures c.Some? ==> IdleOf(k, conf.interval, lifetime, c.value.idle) && IdleFits(c.value.idle, lifetime)
    ensures c.Some? ==> 1 <= c.value.probeInterval <= c.value.idle <= KEEPALIVE_TIME_MAX && 1 <= c.value.probeCount <= KEEPCNT_MAX
  {
    var idle: U64;
    if k.idle != 0 {
      idle := k.idle;
      var milliseconds: U64 := idle * 1000;
      if lifetime != U64_MAX && milliseconds >= lifetime {
        return None;
      }
    } else {
      var rounded: U64 := conf.interval + 999;
      idle := rounded / 1000;
      if lifetime != U64_MAX {
        idle := Min(idle, (lifetime - 1) / 1000);
      }
      if idle < 1 {
        return None;
      }
      idle := Min(idle, KEEPALIVE_TIME_MAX);
    }
    var interval := if k.interval != 0 then k.interval else KEEPINTVL_DEFAULT;
    var count := if k.count != 0 then k.count else KEEPCNT_DEFAULT;
    if interval > idle {
      return None;
    }
    c := Some(conf.(idle := idle, probeInterval := interval, probeCount := count));
  }

  // finish_conf: accepts exactly the acceptable arguments and gives a sound configuration.
  method FinishConf(a: Arguments) returns (c: Option<Conf>)
    requires Parsed(a)
    ensures c.Some? <==> Acceptable(a)
    ensures c.Some? ==> Sound(a, c.value)
  {
    if a.interval < INTERVAL_MIN {
      return None;
    }
    var timeout := a.timeout;
    if timeout != 0 {
      if timeout >= a.interval {
        return None;
      }
    } else {
      timeout := Min(TIMEOUT_DEFAULT_MAX, a.interval - a.interval / 10);
    }
    if !a.tcp && (!a.reuse.Off? || a.keepalive.Enabled?) {
      return None;
    }
    var twice: U64 := a.interval * 2;
    var handshake := Min(Max(REHANDSHAKE_MIN, twice), REHANDSHAKE_MAX);
    var reuse, keepalive := U64_MAX, U64_MAX;
    if a.reuse.Default? {
      reuse := handshake;
    } else if a.reuse.Every? {
      reuse := a.reuse.ms;
    }
    if a.keepalive.Enabled? && a.keepalive.handshake.Default? {
      keepalive := handshake;
    } else if a.keepalive.Enabled? && a.keepalive.handshake.Every? {
      keepalive := a.keepalive.handshake.ms;
    }
    if reuse <= a.interval || keepalive <= a.interval {
      return None;
    }
    handshake := Min(reuse, keepalive);
    var conf := Conf(a.interval, timeout, !a.reuse.Off? || a.keepalive.Enabled?,
                     if handshake == U64_MAX then 0 else handshake, a.keepalive.Enabled?, 0, 0, 0);
    if a.keepalive.Disabled? {
      return Some(conf);
    }
    c := FinishKeepalive(conf, a.keepalive, handshake);
  }

  // How long an accepted directive keeps a connection: as long as it says, the shorter of
  // the two when both reuse and keepalive say so, for ever when neither does, and by default
  // two intervals, but not under half a minute.
  lemma KeptAsLong(a: Arguments, c: Conf)
    requires Parsed(a) && Sound(a, c)
    ensures a.reuse.Off? && a.keepalive.Disabled? ==> c.rehandshake == 0 && !c.keepConnection
    ensures a.reuse.Every? && a.keepalive.Disabled? ==> c.rehandshake == a.reuse.ms
    ensures a.reuse.Default? && a.keepalive.Disabled? ==> c.rehandshake == Min(Max(30000, 2 * a.interval), U64_MAX / 2)
    ensures a.reuse.Off? && a.keepalive.Enabled? && a.keepalive.handshake.Off? ==> c.rehandshake == 0 && c.keepConnection
    ensures a.reuse.Off? && a.keepalive.Enabled? && a.keepalive.handshake.Every? ==> c.rehandshake == a.keepalive.handshake.ms
    ensures a.reuse.Off? && a.keepalive.Enabled? && a.keepalive.handshake.Default? ==>
      c.rehandshake == Min(Max(30000, 2 * a.interval), U64_MAX / 2)
    ensures a.reuse.Every? && a.keepalive.Enabled? && a.keepalive.handshake.Every? ==>
      c.rehandshake == Min(a.reuse.ms, a.keepalive.handshake.ms)
    ensures a.reuse.Every? && a.keepalive.Enabled? && a.keepalive.handshake.Off? ==> c.rehandshake == a.reuse.ms
  {
  }

  // The times of an accepted directive: an interval of at least 100 ms, and by default a
  // timeout of nine tenths of it, at most five seconds. An omitted keepalive idle time is the
  // interval in whole seconds, rounded up, unless the kernel's limit or the connection's
  // lifetime is nearer.
  lemma DefaultTimes(a: Arguments, c: Conf)
    requires Parsed(a) && Sound(a, c)
    ensures c.interval == a.interval >= 100
    ensures a.timeout == 0 ==> c.timeout == Min(5000, a.interval - a.interval / 10)
    ensures c.keepalive && a.keepalive.idle == 0 ==>
      && (c.idle - 1) * 1000 < c.interval && c.idle <= 32767 && (c.rehandshake != 0 ==> c.idle * 1000 < c.rehandshake)
      && (c.interval <= c.idle * 1000 || c.idle == 32767 || (c.rehandshake != 0 && (c.idle + 1) * 1000 >= c.rehandshake))
  {
    if a.keepalive.Enabled? && a.keepalive.idle == 0 {
      assert DefaultIdle(c.idle, a.interval, Lasts(a));
      assert !DefaultIdle(c.idle + 1, a.interval, Lasts(a));
    }
  }

  // The least and the most a directive may say.
  lemma Edges(t: U64)
    requires 100 <= t <= INT64_MAX
    ensures Acceptable(Arguments(true, t, 0, Off, Disabled)) && Acceptable(Arguments(false, t, t - 1, Off, Disabled))
    ensures !Acceptable(Arguments(true, t, t, Off, Disabled)) && !Acceptable(Arguments(true, 99, 0, Off, Disabled))
    ensures !Acceptable(Arguments(false, t, 0, Default, Disabled))
    ensures !Acceptable(Arguments(false, t, 0, Off, Enabled(Off, 0, 0, 0)))
    ensures forall idle: U64 :: 1 <= idle < 32767 ==>
      && Acceptable(Arguments(true, t, 0, Off, Enabled(Off, idle, idle, 0)))
      && !Acceptable(Arguments(true, t, 0, Off, Enabled(Off, idle, idle + 1, 0)))
    ensures forall idle: U64 :: 1 <= idle <= 32767 && t < idle * 1000 ==>
      && !Acceptable(Arguments(true, t, 0, Off, Enabled(Every(idle * 1000), idle, 0, 0)))
      && Acceptable(Arguments(true, t, 0, Off, Enabled(Every(idle * 1000 + 1), idle, 0, 0)))
  {
  }

  // An accepted directive gives the check protocol a valid configuration.
  lemma SoundIsValid(a: Arguments, c: Conf, workers: U64, t: Thresholds, grace: U64, preference: U64, score: nat -> nat)
    requires Parsed(a) && Sound(a, c) && 0 < workers && t.Valid()
    ensures Config(workers, t, c.interval, c.timeout, grace, preference, score, a.tcp).Valid()
  {
  }
}
