// The status writer: formatted output into a chain of fixed-size blocks
// (ngx_healthcheck_status_writer.c).

module Writer {
  import opened Time

  // ---- Decimal numbers ----

  function Digit(d: nat): char
    requires d < 10
  {
    '0' + (d as char)
  }

  function Decimal(value: nat): (s: string)
    ensures |s| > 0
  {
    (if value < 10 then "" else Decimal(value / 10)) + [Digit(value % 10)]
  }

  predicate IsDigit(c: char) { '0' <= c <= '9' }

  function Parse(s: string): nat
    requires forall c :: c in s ==> IsDigit(c)
  {
    if s == "" then 0
    else
      assert IsDigit(s[|s| - 1]);
      10 * Parse(s[..|s| - 1]) + (s[|s| - 1] as int - '0' as int)
  }

  // What is written is read back as the same number, without leading zeros.
  lemma {:induction false} DecimalRoundTrip(value: nat)
    ensures forall c :: c in Decimal(value) ==> IsDigit(c)
    ensures Parse(Decimal(value)) == value
    ensures value > 0 ==> Decimal(value)[0] != '0'
  {
    if value >= 10 {
      DecimalRoundTrip(value / 10);
      assert Decimal(value)[..|Decimal(value)| - 1] == Decimal(value / 10);
    }
  }

  function Pow10(n: nat): nat { if n == 0 then 1 else 10 * Pow10(n - 1) }

  // The longest 64-bit number fits the buffer of twenty characters.
  lemma {:induction false} DecimalFits(value: nat, n: nat)
    requires 0 < n && value < Pow10(n)
    ensures |Decimal(value)| <= n
  {
    if value >= 10 {
      DecimalFits(value / 10, n - 1);
    }
  }

  const NUMBER_LENGTH: nat := 20

  lemma U64FitsBuffer()
    ensures U64_MAX < Pow10(NUMBER_LENGTH)
  {
    assert Pow10(5) == 100000;
    assert Pow10(10) == 100000 * Pow10(5);
    assert Pow10(15) == 100000 * Pow10(10);
    assert Pow10(20) == 100000 * Pow10(15);
  }

  // Digits are produced from the last one into a local buffer.
  method Digits(value: U64) returns (number: array<char>, last: nat)
    ensures fresh(number) && last < number.Length == NUMBER_LENGTH
    ensures number[last..] == Decimal(value)
  {
    hide Decimal;
    U64FitsBuffer();
    DecimalStep(value, "");
    number := new char[NUMBER_LENGTH](_ => ' ');
    last := NUMBER_LENGTH - 1;
    number[last] := Digit(value % 10);
    assert Decimal(value) == Decimal(value) + "";
    assert [Digit(value % 10)] + "" == [Digit(value % 10)];
    var rest: nat := value / 10;
    ghost var written := [Digit(value % 10)];
    assert number[last..] == written;
    while rest != 0
      invariant last < NUMBER_LENGTH && rest < Pow10(last) && number[last..] == written
      invariant Decimal(value) == (if rest == 0 then "" else Decimal(rest)) + written
    {
      DecimalStep(rest, written);
      assert Decimal(value) == Decimal(rest) + written;
      last := last - 1;
      number[last] := Digit(rest % 10);
      written := [Digit(rest % 10)] + written;
      assert number[last..] == [number[last]] + number[last + 1..];
      rest := rest / 10;
    }
  }

  lemma DecimalStep(value: nat, written: string)
    ensures Decimal(value) + written == (if value / 10 == 0 then "" else Decimal(value / 10)) + ([Digit(value % 10)] + written)
  {
  }

  lemma TakeMore(data: string, at: nat, more: nat)
    requires at + more <= |data|
    ensures data[..at] + data[at..][..more] == data[..at + more]
  {
  }

  // ---- The blocks ----

  function Flatten(pieces: seq<string>): string {
    if pieces == [] then "" else Flatten(pieces[..|pieces| - 1]) + pieces[|pieces| - 1]
  }

  // All pieces but the last are full.
  predicate Packed(pieces: seq<string>, size: nat) {
    && (forall k :: 0 <= k < |pieces| ==> |pieces[k]| <= size)
    && (forall k :: 0 <= k < |pieces| - 1 ==> |pieces[k]| == size)
  }

  function Ceiling(length: nat, size: nat): nat
    requires 0 < size
    decreases length
  {
    if length == 0 then 0 else if length <= size then 1 else 1 + Ceiling(length - size, size)
  }

  lemma {:induction false} CeilingIsLeast(length: nat, size: nat)
    requires 0 < size
    ensures Ceiling(length, size) * size >= length
    ensures length > 0 ==> (Ceiling(length, size) - 1) * size < length
    decreases length
  {
    if length > size {
      CeilingIsLeast(length - size, size);
    }
  }

  lemma {:induction false} CeilingMono(a: nat, b: nat, size: nat)
    requires 0 < size && a <= b
    ensures Ceiling(a, size) <= Ceiling(b, size)
    decreases b
  {
    if a > size {
      CeilingMono(a - size, b - size, size);
    }
  }

  lemma {:induction false} CeilingOfFull(blocks: nat, extra: nat, size: nat)
    requires 0 < size && extra <= size
    ensures Ceiling(blocks * size + extra, size) == if extra == 0 then blocks else blocks + 1
  {
    if blocks > 0 {
      CeilingOfFull(blocks - 1, extra, size);
      assert blocks * size + extra - size == (blocks - 1) * size + extra;
    }
  }

  lemma {:induction false} FlattenLength(pieces: seq<string>, size: nat)
    requires Packed(pieces, size) && pieces != []
    ensures |Flatten(pieces)| == (|pieces| - 1) * size + |pieces[|pieces| - 1]|
  {
    if |pieces| > 1 {
      var rest := pieces[..|pieces| - 1];
      FlattenLength(rest, size);
      assert |Flatten(pieces)| == |Flatten(rest)| + |pieces[|pieces| - 1]|;
      assert (|pieces| - 2) * size + size == (|pieces| - 1) * size;
    }
  }

  // The number of blocks is the least that holds the text.
  lemma BlocksAreCeiling(pieces: seq<string>, size: nat)
    requires 0 < size && Packed(pieces, size)
    ensures pieces == [] ==> Ceiling(|Flatten(pieces)|, size) == 0
    ensures pieces != [] ==> Ceiling(|Flatten(pieces)|, size) == if |pieces[|pieces| - 1]| == 0 then |pieces| - 1 else |pieces|
  {
    if pieces != [] {
      FlattenLength(pieces, size);
      CeilingOfFull(|pieces| - 1, |pieces[|pieces| - 1]|, size);
    }
  }

  lemma FlattenExtend(pieces: seq<string>, more: string)
    requires pieces != []
    ensures var n := |pieces| - 1;
      Flatten(pieces[n := pieces[n] + more]) == Flatten(pieces) + more
  {
    var n := |pieces| - 1;
    assert pieces[n := pieces[n] + more][..n] == pieces[..n];
  }

  lemma PackedAdd(pieces: seq<string>, size: nat)
    requires Packed(pieces, size) && (pieces != [] ==> |pieces[|pieces| - 1]| == size)
    ensures Packed(pieces + [""], size)
  {
  }

  lemma PackedExtend(pieces: seq<string>, size: nat, more: string)
    requires Packed(pieces, size) && pieces != [] && |pieces[|pieces| - 1]| + |more| <= size
    ensures var n := |pieces| - 1; Packed(pieces[n := pieces[n] + more], size)
  {
  }

  lemma FlattenAdd(pieces: seq<string>)
    ensures Flatten(pieces + [""]) == Flatten(pieces)
  {
    assert (pieces + [""])[..|pieces|] == pieces;
  }

  // ---- Formats ----

  datatype Arg = Text(text: string) | Number(value: U64)

  function Milliseconds(value: U64): string { if value == U64_MAX then "-1" else Decimal(value) }

  datatype Conversion = Percent | String | Unsigned | Msec | Unknown

  // What the characters after a percent sign ask for.
  function Convert(rest: string): Conversion {
    if rest == "" then Unknown
    else
      match rest[0]
      case '%' => Percent
      case 'V' => String
      case 's' => String
      case 'u' => if |rest| > 1 && rest[1] == 'i' then Unsigned else Unknown
      case 'M' => Msec
      case _ => Unknown
  }

  function Width(c: Conversion): nat { if c.Unknown? then 0 else if c.Unsigned? then 2 else 1 }

  function Takes(c: Conversion): nat { if c.Percent? || c.Unknown? then 0 else 1 }

  predicate Supplied(c: Conversion, args: seq<Arg>) {
    match c
    case Percent => true
    case String => args != [] && args[0].Text?
    case Unsigned => args != [] && args[0].Number?
    case Msec => args != [] && args[0].Number?
    case Unknown => true
  }

  function Rendered(c: Conversion, args: seq<Arg>): string
    requires Supplied(c, args)
  {
    match c
    case Percent => "%"
    case String => args[0].text
    case Unsigned => Decimal(args[0].value)
    case Msec => Milliseconds(args[0].value)
    case Unknown => ""
  }

  // The caller supplies every argument the format asks for, with its type.
  predicate Typed(fmt: string, args: seq<Arg>)
    decreases |fmt|
  {
    if fmt == "" then true
    else if fmt[0] != '%' then Typed(fmt[1..], args)
    else
      var c := Convert(fmt[1..]);
      Supplied(c, args) && (c.Unknown? || Typed(fmt[1 + Width(c)..], args[Takes(c)..]))
  }

  // The formatted text up to the first unknown directive, and whether there was none.
  datatype Expansion = Expansion(text: string, good: bool)

  function Before(prefix: string, e: Expansion): Expansion { e.(text := prefix + e.text) }

  function Expand(fmt: string, args: seq<Arg>): Expansion
    requires Typed(fmt, args)
    decreases |fmt|
  {
    if fmt == "" then Expansion("", true)
    else if fmt[0] != '%' then Before(fmt[..1], Expand(fmt[1..], args))
    else
      var c := Convert(fmt[1..]);
      if c.Unknown? then Expansion("", false)
      else Before(Rendered(c, args), Expand(fmt[1 + Width(c)..], args[Takes(c)..]))
  }

  lemma BeforeTwice(a: string, b: string, e: Expansion)
    ensures Before(a, Before(b, e)) == Before(a + b, e)
  {
    assert a + (b + e.text) == a + b + e.text;
  }

  // ---- What a format means ----

  // The parts of a format, with the value each directive shows. A text argument is a counted
  // or a terminated string.
  datatype Part = Plain(text: string) | Sign | Counted(text: string) | Terminated(text: string) | Count(value: U64) | Time(value: U64)

  predicate Proper(part: Part) { part.Plain? ==> '%' !in part.text }

  function Spelled(part: Part): string {
    match part
    case Plain(text) => text
    case Sign => "%%"
    case Counted(_) => "%V"
    case Terminated(_) => "%s"
    case Count(_) => "%ui"
    case Time(_) => "%M"
  }

  function Value(part: Part): seq<Arg> {
    match part
    case Plain(_) => []
    case Sign => []
    case Counted(text) => [Text(text)]
    case Terminated(text) => [Text(text)]
    case Count(value) => [Number(value)]
    case Time(value) => [Number(value)]
  }

  function Shown(part: Part): string {
    match part
    case Plain(text) => text
    case Sign => "%"
    case Counted(text) => text
    case Terminated(text) => text
    case Count(value) => Decimal(value)
    case Time(value) => if value == U64_MAX then "-1" else Decimal(value)
  }

  function SpelledAll(parts: seq<Part>): string { if parts == [] then "" else Spelled(parts[0]) + SpelledAll(parts[1..]) }

  function Values(parts: seq<Part>): seq<Arg> { if parts == [] then [] else Value(parts[0]) + Values(parts[1..]) }

  function ShownAll(parts: seq<Part>): string { if parts == [] then "" else Shown(parts[0]) + ShownAll(parts[1..]) }

  lemma {:induction false} PlainRun(text: string, fmt: string, args: seq<Arg>)
    requires '%' !in text && Typed(fmt, args)
    ensures Typed(text + fmt, args) && Expand(text + fmt, args) == Before(text, Expand(fmt, args))
  {
    if text == "" {
      assert text + fmt == fmt;
    } else {
      PlainRun(text[1..], fmt, args);
      assert (text + fmt)[1..] == text[1..] + fmt && (text + fmt)[..1] == text[..1];
      BeforeTwice(text[..1], text[1..], Expand(fmt, args));
      assert text == text[..1] + text[1..];
    }
  }

  lemma OnePart(part: Part, fmt: string, args: seq<Arg>)
    requires Proper(part) && Typed(fmt, args)
    ensures Typed(Spelled(part) + fmt, Value(part) + args)
    ensures Expand(Spelled(part) + fmt, Value(part) + args) == Before(Shown(part), Expand(fmt, args))
  {
    var f, a := Spelled(part) + fmt, Value(part) + args;
    if part.Plain? {
      PlainRun(part.text, fmt, args);
      assert a == args;
    } else {
      var c := Convert(f[1..]);
      assert f[1 + Width(c)..] == fmt && a[Takes(c)..] == args;
      assert f[1..] == Spelled(part)[1..] + fmt;
      hide Decimal;
    }
  }

  // Printing a format is showing its parts in order, whatever follows.
  lemma {:induction false} PartsThen(parts: seq<Part>, fmt: string, args: seq<Arg>)
    requires (forall k :: 0 <= k < |parts| ==> Proper(parts[k])) && Typed(fmt, args)
    ensures Typed(SpelledAll(parts) + fmt, Values(parts) + args)
    ensures Expand(SpelledAll(parts) + fmt, Values(parts) + args) == Before(ShownAll(parts), Expand(fmt, args))
  {
    hide Expand, Typed, Spelled, Value, Shown, Before;
    if parts == [] {
      assert SpelledAll(parts) + fmt == fmt && Values(parts) + args == args;
      BeforeNothing(Expand(fmt, args));
    } else {
      var rest := parts[1..];
      PartsThen(rest, fmt, args);
      OnePart(parts[0], SpelledAll(rest) + fmt, Values(rest) + args);
      assert SpelledAll(parts) + fmt == Spelled(parts[0]) + (SpelledAll(rest) + fmt);
      assert Values(parts) + args == Value(parts[0]) + (Values(rest) + args);
      BeforeTwice(Shown(parts[0]), ShownAll(rest), Expand(fmt, args));
    }
  }

  lemma BeforeNothing(e: Expansion)
    ensures Before("", e) == e
  {
    assert "" + e.text == e.text;
  }

  // A percent sign that starts none of the five directives.
  predicate Misspelled(tail: string) {
    && tail != "" && tail[0] == '%'
    && (|tail| == 1 || tail[1] !in "%VsuM" || (tail[1] == 'u' && (|tail| == 2 || tail[2] != 'i')))
  }

  // A format prints its parts, each as it is meant; an unknown directive behind them stops
  // the output there with an error.
  lemma FormatMeans(parts: seq<Part>, tail: string)
    requires forall k :: 0 <= k < |parts| ==> Proper(parts[k])
    ensures Typed(SpelledAll(parts), Values(parts))
    ensures Expand(SpelledAll(parts), Values(parts)) == Expansion(ShownAll(parts), true)
    ensures Misspelled(tail) ==>
      Typed(SpelledAll(parts) + tail, Values(parts)) && Expand(SpelledAll(parts) + tail, Values(parts)) == Expansion(ShownAll(parts), false)
  {
    PartsThen(parts, "", []);
    assert SpelledAll(parts) + "" == SpelledAll(parts) && Values(parts) + [] == Values(parts);
    assert ShownAll(parts) + "" == ShownAll(parts);
    if Misspelled(tail) {
      assert Convert(tail[1..]).Unknown?;
      PartsThen(parts, tail, []);
    }
  }

  function Escape(s: string): string {
    if s == "" then "" else (if s[0] == '%' then "%%" else [s[0]]) + Escape(s[1..])
  }

  // A text with its percent signs doubled is printed as it was.
  lemma {:induction false} EscapeRoundTrip(s: string)
    ensures Typed(Escape(s), []) && Expand(Escape(s), []) == Expansion(s, true)
  {
    if s != "" {
      EscapeRoundTrip(s[1..]);
      if s[0] == '%' {
        assert Escape(s)[2..] == Escape(s[1..]);
      } else {
        assert Escape(s)[1..] == Escape(s[1..]);
      }
    }
  }

  lemma ExpandPlain(fmt: string, f: nat, args: seq<Arg>)
    requires f < |fmt| && fmt[f] != '%' && Typed(fmt[f..], args)
    ensures Typed(fmt[f + 1..], args)
    ensures Expand(fmt[f..], args) == Before(fmt[f..f + 1], Expand(fmt[f + 1..], args))
  {
    assert fmt[f..][1..] == fmt[f + 1..] && fmt[f..][..1] == fmt[f..f + 1];
  }

  lemma ExpandConversion(fmt: string, f: nat, args: seq<Arg>, a: nat)
    requires f < |fmt| && fmt[f] == '%' && a <= |args| && Typed(fmt[f..], args[a..])
    ensures var c := Convert(fmt[f + 1..]);
      && Supplied(c, args[a..])
      && (c.Unknown? ==> Expand(fmt[f..], args[a..]) == Expansion("", false))
      && (!c.Unknown? ==>
            && f + 1 + Width(c) <= |fmt| && a + Takes(c) <= |args|
            && Typed(fmt[f + 1 + Width(c)..], args[a + Takes(c)..])
            && Expand(fmt[f..], args[a..])
               == Before(Rendered(c, args[a..]), Expand(fmt[f + 1 + Width(c)..], args[a + Takes(c)..])))
  {
    var c := Convert(fmt[f + 1..]);
    assert fmt[f..][1..] == fmt[f + 1..];
    if !c.Unknown? {
      assert fmt[f..][1 + Width(c)..] == fmt[f + 1 + Width(c)..];
      assert args[a..][Takes(c)..] == args[a + Takes(c)..];
    }
  }

  // Where printf stands: done is written, fmt[literal..f] is plain text not yet written.
  predicate Standing(fmt: string, args: seq<Arg>, literal: nat, f: nat, a: nat, done: string, total: Expansion) {
    && literal <= f <= |fmt| && a <= |args| && Typed(fmt[f..], args[a..])
    && total == Before(done + fmt[literal..f], Expand(fmt[f..], args[a..]))
  }

  lemma StandingAtStart(fmt: string, args: seq<Arg>)
    requires Typed(fmt, args)
    ensures Standing(fmt, args, 0, 0, 0, "", Expand(fmt, args))
  {
    assert fmt[0..] == fmt && args[0..] == args;
  }

  lemma StandingPlain(fmt: string, args: seq<Arg>, literal: nat, f: nat, a: nat, done: string, total: Expansion)
    requires Standing(fmt, args, literal, f, a, done, total) && f < |fmt| && fmt[f] != '%'
    ensures Standing(fmt, args, literal, f + 1, a, done, total)
  {
    ExpandPlain(fmt, f, args[a..]);
    hide Expand, Typed;
    BeforeTwice(done + fmt[literal..f], fmt[f..f + 1], Expand(fmt[f + 1..], args[a..]));
    assert done + fmt[literal..f] + fmt[f..f + 1] == done + fmt[literal..f + 1];
  }

  lemma StandingConversion(fmt: string, args: seq<Arg>, literal: nat, f: nat, a: nat, done: string, total: Expansion)
    requires Standing(fmt, args, literal, f, a, done, total) && f < |fmt| && fmt[f] == '%'
    ensures var c := Convert(fmt[f + 1..]);
      && Supplied(c, args[a..])
      && done + (fmt[literal..f] + Rendered(c, args[a..])) <= total.text
      && (c.Unknown? ==> !total.good)
      && (!c.Unknown? ==>
            && f + 1 + Width(c) <= |fmt| && a + Takes(c) <= |args|
            && Standing(fmt, args, f + 1 + Width(c), f + 1 + Width(c), a + Takes(c), done + (fmt[literal..f] + Rendered(c, args[a..])), total))
  {
    ExpandConversion(fmt, f, args, a);
    hide Expand, Typed, Convert, Supplied;
    var c := Convert(fmt[f + 1..]);
    if c.Unknown? {
      assert fmt[literal..f] + Rendered(c, args[a..]) == fmt[literal..f];
    } else {
      var piece, g := Rendered(c, args[a..]), f + 1 + Width(c);
      BeforeTwice(done + fmt[literal..f], piece, Expand(fmt[g..], args[a + Takes(c)..]));
      assert done + fmt[literal..f] + piece == done + (fmt[literal..f] + piece);
      assert done + (fmt[literal..f] + piece) + fmt[g..g] == done + (fmt[literal..f] + piece);
    }
  }

  lemma StandingAtEnd(fmt: string, args: seq<Arg>, literal: nat, a: nat, done: string, total: Expansion)
    requires Standing(fmt, args, literal, |fmt|, a, done, total)
    ensures total == Expansion(done + fmt[literal..], true)
  {
  }

  lemma StopsShort(was: string, done: string, part: string, total: string)
    requires done + part <= total
    ensures was + done + part <= was + total
  {
    assert was + total == was + done + part + total[|done + part|..];
  }

  // The size of a block; the source uses 131072 characters.
  type Size = n: nat | 0 < n witness 1

  class Block {
    const data: array<char>
    var last: nat
    var next: Block?

    constructor (size: nat)
      ensures fresh(data) && data.Length == size && last == 0 && next == null
    {
      data := new char[size](_ => ' ');
      last, next := 0, null;
    }

    method Append(chunk: string)
      requires last + |chunk| <= data.Length
      modifies this`last, data
      ensures last == old(last) + |chunk| && data[..last] == old(data[..last]) + chunk
    {
      forall j | 0 <= j < |chunk| {
        data[last + j] := chunk[j];
      }
      last := last + |chunk|;
    }
  }

  ghost predicate Separate(chain: seq<Block>) {
    forall j, k :: 0 <= j < k < |chain| ==> chain[j] != chain[k] && chain[j].data != chain[k].data
  }

  ghost predicate Owned(chain: seq<Block>, repr: set<object>) {
    forall k :: 0 <= k < |chain| ==> chain[k] in repr && chain[k].data in repr
  }

  lemma SeparateAdd(chain: seq<Block>, repr: set<object>, block: Block)
    requires Separate(chain) && Owned(chain, repr) && block !in repr && block.data !in repr
    ensures Separate(chain + [block]) && Owned(chain + [block], repr + {block, block.data})
  {
  }

  class Output {
    const size: Size
    var head: Block?
    var tail: Block?
    var length: nat
    var blocks: nat
    // How many more blocks the request pool can give.
    var memory: nat
    ghost var chain: seq<Block>
    ghost var pieces: seq<string>
    ghost var repr: set<object>

    ghost predicate Linked()
      reads `blocks, `head, `tail, `chain, chain`next
    {
      && blocks == |chain|
      && head == (if chain == [] then null else chain[0])
      && tail == (if chain == [] then null else chain[|chain| - 1])
      && (forall k :: 0 <= k < |chain| - 1 ==> chain[k].next == chain[k + 1])
      && (tail != null ==> tail.next == null)
    }

    ghost predicate Holds(b: Block, piece: string)
      reads b`last, b.data
    {
      b.data.Length == size && b.last <= size && b.data[..b.last] == piece
    }

    ghost predicate HoldsAll(bs: seq<Block>, ps: seq<string>)
      reads bs`last, set b | b in bs :: b.data
    {
      |bs| == |ps| && forall k :: 0 <= k < |bs| ==> Holds(bs[k], ps[k])
    }

    ghost predicate Valid()
      reads `head, `tail, `length, `blocks, `chain, `pieces, `repr, repr
    {
      && this !in repr && Owned(chain, repr) && Separate(chain) && Linked()
      && HoldsAll(chain, pieces)
      && Packed(pieces, size)
      && length == |Text()| <= INT64_MAX
    }

    // The flat string the chain stands for.
    ghost function Text(): string
      reads `pieces
    {
      Flatten(pieces)
    }

    ghost predicate NoEmptyBlock()
      reads this
    {
      pieces != [] ==> pieces[|pieces| - 1] != ""
    }

    ghost predicate LastFull()
      reads `pieces
    {
      pieces != [] ==> |pieces[|pieces| - 1]| == size
    }

    // Whether a text of that length can be held at all.
    ghost predicate Fits(total: nat)
      reads this
    {
      total <= INT64_MAX && Ceiling(total, size) <= blocks + memory
    }

    constructor (size: Size, memory: nat)
      ensures Valid() && Text() == "" && chain == [] && NoEmptyBlock() && this.size == size && this.memory == memory
    {
      this.size, this.memory := size, memory;
      head, tail, length, blocks := null, null, 0, 0;
      chain, pieces, repr := [], [], {};
    }

    lemma BlocksCount()
      requires Linked()
      ensures blocks == |chain| && (tail == null <==> chain == [])
    {
    }

    method Link(block: Block)
      requires Linked() && block !in chain && block.next == null
      modifies `head, `tail, `blocks, `chain, chain`next
      ensures Linked() && chain == old(chain) + [block] && tail == block
    {
      if tail == null {
        head := block;
      } else {
        assert chain[|chain| - 1] == tail;
        tail.next := block;
      }
      tail := block;
      blocks := blocks + 1;
      chain := chain + [block];
    }

    lemma HoldsAdd(block: Block)
      requires HoldsAll(chain, pieces) && block.data.Length == size && block.last == 0
      ensures HoldsAll(chain + [block], pieces + [""])
    {
    }

    lemma ChainOwned()
      requires Valid()
      ensures this !in repr && forall b :: b in chain ==> b in repr
    {
    }

    method AttachBlock(block: Block)
      requires Valid() && (pieces != [] ==> |pieces[|pieces| - 1]| == size)
      requires block !in repr && block.data !in repr
      requires block.data.Length == size && block.last == 0 && block.next == null
      modifies `head, `tail, `blocks, `chain, `pieces, `repr, chain`next
      ensures Valid() && pieces == old(pieces) + [""] && blocks == old(blocks) + 1
      ensures repr == old(repr) + {block, block.data}
    {
      hide Flatten;
      FlattenAdd(pieces);
      PackedAdd(pieces, size);
      SeparateAdd(chain, repr, block);
      HoldsAdd(block);
      BlocksCount();
      ghost var longer, more := chain + [block], pieces + [""];
      hide Packed, Output.HoldsAll, Separate, Owned, Output.Linked;
      Link(block);
      assert HoldsAll(longer, more);
      BlocksCount();
      pieces := more;
      repr := repr + {block, block.data};
    }

    method Attach()
      requires Valid() && (pieces != [] ==> |pieces[|pieces| - 1]| == size)
      modifies `head, `tail, `blocks, `chain, `pieces, `repr, chain`next
      ensures Valid() && pieces == old(pieces) + [""] && blocks == old(blocks) + 1
      ensures fresh(repr - old(repr))
    {
      hide Flatten, Output.Valid;
      var block := new Block(size);
      AttachBlock(block);
    }

    method AddBlock() returns (ok: bool)
      requires Valid() && (pieces != [] ==> |pieces[|pieces| - 1]| == size)
      modifies this, repr
      ensures Valid() && Text() == old(Text()) && blocks + memory == old(blocks + memory) && fresh(repr - old(repr))
      ensures ok <==> old(memory) > 0
      ensures pieces == old(pieces) + if ok then [""] else []
    {
      hide Output.Valid, Flatten;
      if memory == 0 {
        return false;
      }
      FlattenAdd(pieces);
      ChainOwned();
      Attach();
      ChainOwned();
      memory := memory - 1;
      return true;
    }

    // Copies a chunk into the space left in the last block.
    method Fill(chunk: string)
      requires Valid() && tail != null && |chunk| <= size - tail.last && length + |chunk| <= INT64_MAX
      modifies this`length, this`pieces, tail`last, tail.data
      ensures Valid() && Text() == old(Text()) + chunk
      ensures repr == old(repr) && chain == old(chain) && tail.last == old(tail.last) + |chunk|
      ensures chunk != "" ==> NoEmptyBlock()
    {
      hide Flatten;
      ghost var n := |chain| - 1;
      assert tail == chain[n] && Holds(tail, pieces[n]) && |pieces[n]| + |chunk| <= size;
      assert forall k :: 0 <= k < n ==> chain[k] != tail && chain[k].data != tail.data;
      FlattenExtend(pieces, chunk);
      PackedExtend(pieces, size, chunk);
      hide Separate, Output.Linked, Owned, Packed;
      label before:
      tail.Append(chunk);
      assert Holds(tail, pieces[n] + chunk);
      assert forall k :: 0 <= k < n ==> old@before(Holds(chain[k], pieces[k]));
      hide Output.Holds;
      length := length + |chunk|;
      pieces := pieces[n := pieces[n] + chunk];
    }

    lemma TailRoom()
      requires Valid()
      ensures tail == null <==> pieces == []
      ensures tail != null ==> tail in repr && tail.data in repr && tail.data.Length == size && tail.last == |pieces[|pieces| - 1]| <= size
    {
      if tail != null {
        assert Holds(chain[|chain| - 1], pieces[|pieces| - 1]);
      }
    }

    // When the last block is full and no memory is left, no further character fits.
    lemma NoRoom(total: nat)
      requires Valid() && memory == 0 && total > |Text()|
      requires pieces != [] ==> |pieces[|pieces| - 1]| == size
      ensures !Fits(total)
    {
      hide Flatten;
      if pieces != [] {
        FlattenLength(pieces, size);
        assert |Text()| == blocks * size by { assert (blocks - 1) * size + size == blocks * size; }
        CeilingOfFull(blocks, 1, size);
        CeilingMono(blocks * size + 1, total, size);
      }
    }

    // All blocks but the last are full, and there are exactly as many as the text needs if
    // and only if none is empty, which every successful write keeps.
    lemma BlocksExact()
      requires Valid()
      ensures blocks == Ceiling(|Text()|, size) <==> NoEmptyBlock()
      ensures forall k :: 0 <= k < |chain| - 1 ==> chain[k].last == size
    {
      hide Flatten, Ceiling;
      BlocksAreCeiling(pieces, size);
    }

    // A text that is there has fitted.
    lemma TextFits()
      requires Valid() && NoEmptyBlock()
      ensures Fits(|Text()|)
    {
      hide Flatten;
      BlocksAreCeiling(pieces, size);
    }

    // One chunk: as much as the last block, or a new one when it is full, can take.
    method AppendChunk(data: string) returns (copied: nat)
      requires Valid() && data != ""
      modifies this, repr
      ensures Valid() && blocks + memory == old(blocks + memory)
      ensures fresh(repr - old(repr))
      ensures copied <= |data| && Text() == old(Text()) + data[..copied]
      ensures copied > 0 ==> NoEmptyBlock()
      ensures copied > 0 && old(LastFull()) ==> copied == Min(size, |data|)
      ensures copied == 0 ==> !old(Fits(|Text()| + |data|))
      ensures copied == 0 ==> pieces == old(pieces) + if old(LastFull()) && old(memory) > 0 then [""] else []
    {
      hide Flatten, Linked, Separate, Holds, Packed, Ceiling;
      TailRoom();
      if tail == null || tail.last == size {
        if memory == 0 {
          NoRoom(|Text()| + |data|);
        }
        var added := AddBlock();
        if !added {
          return 0;
        }
        TailRoom();
      }
      copied := Min(size - tail.last, |data|);
      if length > INT64_MAX - copied {
        return 0;
      }
      Fill(data[..copied]);
    }

    // A write that fails can leave an empty block: one block short of the longest response,
    // a new block is linked before the length is found to be too large.
    method FailureLeavesEmptyBlock(data: string) returns (copied: nat)
      requires Valid() && NoEmptyBlock() && memory > 0 && size == 131072
      requires |Text()| == INT64_MAX + 1 - size && |data| >= size
      modifies this, repr
      ensures copied == 0 && !NoEmptyBlock() && blocks == Ceiling(|Text()|, size) + 1
    {
      assert pieces != [];
      hide Flatten, Separate, Ceiling;
      FlattenLength(pieces, size);
      assert LastFull();
      copied := AppendChunk(data);
      BlocksAreCeiling(pieces, size);
    }

    // append: all of the data or an error; what an error leaves is a prefix. It succeeds
    // exactly when the response length stays representable and the blocks suffice.
    method Append(data: string) returns (ok: bool)
      requires Valid()
      modifies this, repr
      ensures Valid() && blocks + memory == old(blocks + memory)
      ensures fresh(repr - old(repr))
      ensures ok <==> data == "" || old(Fits(|Text()| + |data|))
      ensures ok ==> Text() == old(Text()) + data
      ensures ok && old(NoEmptyBlock()) ==> NoEmptyBlock()
      ensures old(Text()) <= Text() <= old(Text()) + data
    {
      hide Flatten, Linked, Separate, Holds, Packed, Ceiling;
      var at := 0;
      ghost var was := Text();
      while at < |data|
        invariant at <= |data| && Valid() && blocks + memory == old(blocks + memory)
        invariant fresh(repr - old(repr))
        invariant Text() == was + data[..at]
        invariant at > 0 ==> NoEmptyBlock() && Fits(|was| + at)
        invariant at == 0 ==> pieces == old(pieces)
      {
        var copied := AppendChunk(data[at..]);
        if copied == 0 {
          return false;
        }
        TakeMore(data, at, copied);
        at := at + copied;
        TextFits();
      }
      assert data[..at] == data;
      return true;
    }

    lemma FitsMono(a: nat, b: nat)
      requires Valid() && a <= b
      ensures Fits(b) ==> Fits(a)
    {
      CeilingMono(a, b, size);
    }

    method AppendUint(value: U64) returns (ok: bool)
      requires Valid()
      modifies this, repr
      ensures Valid() && blocks + memory == old(blocks + memory)
      ensures fresh(repr - old(repr))
      ensures ok <==> old(Fits(|Text()| + |Decimal(value)|))
      ensures ok ==> Text() == old(Text()) + Decimal(value)
      ensures old(Text()) <= Text() <= old(Text()) + Decimal(value)
      ensures ok && old(NoEmptyBlock()) ==> NoEmptyBlock()
    {
      hide Output.Fits, Flatten;
      var number, last := Digits(value);
      ok := Append(number[last..]);
    }

    // The value -1 stands for "not available".
    method AppendMsec(value: U64) returns (ok: bool)
      requires Valid()
      modifies this, repr
      ensures Valid() && blocks + memory == old(blocks + memory)
      ensures fresh(repr - old(repr))
      ensures ok <==> old(Fits(|Text()| + |Milliseconds(value)|))
      ensures ok ==> Text() == old(Text()) + Milliseconds(value)
      ensures old(Text()) <= Text() <= old(Text()) + Milliseconds(value)
      ensures ok && old(NoEmptyBlock()) ==> NoEmptyBlock()
    {
      hide Output.Valid;
      if value == U64_MAX {
        FitsMono(|Text()| + 1, |Text()| + 2);
        ok := Append("-");
        if ok {
          ok := AppendUint(1);
        }
      } else {
        ok := AppendUint(value);
      }
    }

    method AppendConversion(c: Conversion, args: seq<Arg>) returns (ok: bool)
      requires Valid() && Supplied(c, args) && !c.Unknown?
      modifies this, repr
      ensures Valid() && blocks + memory == old(blocks + memory) && fresh(repr - old(repr))
      ensures ok <==> Rendered(c, args) == "" || old(Fits(|Text()| + |Rendered(c, args)|))
      ensures ok ==> Text() == old(Text()) + Rendered(c, args)
      ensures old(Text()) <= Text() <= old(Text()) + Rendered(c, args)
      ensures ok && old(NoEmptyBlock()) ==> NoEmptyBlock()
    {
      hide Output.Valid, Flatten, Decimal;
      match c {
        case Percent => ok := Append("%");
        case String => ok := Append(args[0].text);
        case Unsigned => ok := AppendUint(args[0].value);
        case Msec => ok := AppendMsec(args[0].value);
      }
    }

    // Once one part did not fit, the whole does not.
    lemma Overflows(was: string, done: string, part: string, total: string)
      requires Valid() && done + part <= total && part != ""
      requires !Fits(|was + done| + |part|)
      ensures !Fits(|was| + |total|) && total != ""
      ensures was + done + part <= was + total
    {
      FitsMono(|was| + |done| + |part|, |was| + |total|);
      assert was + total == was + done + part + total[|done + part|..];
    }

    // The plain text before a directive, then the directive's own.
    method Emit(plain: string, c: Conversion, args: seq<Arg>) returns (ok: bool)
      requires Valid() && Supplied(c, args)
      modifies this, repr
      ensures Valid() && blocks + memory == old(blocks + memory) && fresh(repr - old(repr))
      ensures var data := plain + Rendered(c, args);
        && (ok <==> !c.Unknown? && (data == "" || old(Fits(|Text()| + |data|))))
        && (ok ==> Text() == old(Text()) + data)
        && old(Text()) <= Text() <= old(Text()) + data
      ensures ok && old(NoEmptyBlock()) ==> NoEmptyBlock()
    {
      hide Output.Valid, Flatten, Ceiling, Rendered, Supplied;
      FitsMono(|Text()| + |plain|, |Text()| + |plain + Rendered(c, args)|);
      if plain != "" {
        ok := Append(plain);
        if !ok {
          return;
        }
      }
      if c.Unknown? {
        return false;
      }
      ok := AppendConversion(c, args);
    }

    // printf: succeeds exactly when every directive is known and the whole text fits, and
    // then appends exactly the expansion; an error leaves a prefix of it.
    method Printf(fmt: string, args: seq<Arg>) returns (ok: bool)
      requires Valid() && Typed(fmt, args)
      modifies this, repr
      ensures Valid() && blocks + memory == old(blocks + memory) && fresh(repr - old(repr))
      ensures var e := Expand(fmt, args);
        && (ok <==> e.good && (e.text == "" || old(Fits(|Text()| + |e.text|))))
        && (ok ==> Text() == old(Text()) + e.text)
        && old(Text()) <= Text() <= old(Text()) + e.text
      ensures ok && old(NoEmptyBlock()) ==> NoEmptyBlock()
    {
      hide Output.Valid, Flatten, Ceiling, Rendered, Supplied, Typed, Convert, Expand, Standing, Width, Takes;
      var literal: nat, f: nat, a: nat := 0, 0, 0;
      ghost var was, done, total := Text(), "", Expand(fmt, args);
      StandingAtStart(fmt, args);
      while f < |fmt|
        invariant literal <= f <= |fmt| && a <= |args| && Valid()
        invariant blocks + memory == old(blocks + memory) && fresh(repr - old(repr))
        invariant Text() == was + done && (done == "" || Fits(|Text()|))
        invariant old(NoEmptyBlock()) ==> NoEmptyBlock()
        invariant Standing(fmt, args, literal, f, a, done, total)
      {
        if fmt[f] != '%' {
          StandingPlain(fmt, args, literal, f, a, done, total);
          f := f + 1;
          continue;
        }
        ghost var next;
        ok, f, a, next := Directive(fmt, args, literal, f, a, was, done, total);
        if !ok {
          return;
        }
        done := next;
        literal := f;
      }
      ok := Tail(fmt, args, literal, a, was, done, total);
    }

    // The plain text up to a directive and the directive itself.
    method Directive(fmt: string, args: seq<Arg>, literal: nat, f: nat, a: nat, ghost was: string, ghost done: string, ghost total: Expansion)
      returns (ok: bool, g: nat, b: nat, ghost next: string)
      requires Valid() && Standing(fmt, args, literal, f, a, done, total)
      requires literal <= f < |fmt| && a <= |args| && fmt[f] == '%'
      requires Text() == was + done && (done == "" || Fits(|Text()|))
      modifies this, repr
      ensures Valid() && blocks + memory == old(blocks + memory) && fresh(repr - old(repr))
      ensures ok ==> g <= |fmt| && b <= |args| && f < g && Standing(fmt, args, g, g, b, next, total)
      ensures ok ==> Text() == was + next && (next == "" || Fits(|Text()|))
      ensures !ok ==> !total.good || (total.text != "" && !old(Fits(|was| + |total.text|)))
      ensures !ok ==> was <= Text() <= was + total.text
      ensures ok && old(NoEmptyBlock()) ==> NoEmptyBlock()
    {
      hide Output.Valid, Flatten, Ceiling, Rendered, Supplied, Typed, Convert, Expand, Standing;
      StandingConversion(fmt, args, literal, f, a, done, total);
      var c := Convert(fmt[f + 1..]);
      next := done + (fmt[literal..f] + Rendered(c, args[a..]));
      g, b := f + 1 + Width(c), a + Takes(c);
      ok := Emit(fmt[literal..f], c, args[a..]);
      if !ok {
        StopsShort(was, done, fmt[literal..f] + Rendered(c, args[a..]), total.text);
        if !c.Unknown? {
          Overflows(was, done, fmt[literal..f] + Rendered(c, args[a..]), total.text);
        }
      }
    }

    // The plain text behind the last directive.
    method Tail(fmt: string, args: seq<Arg>, literal: nat, a: nat, ghost was: string, ghost done: string, ghost total: Expansion) returns (ok: bool)
      requires Valid() && literal <= |fmt| && Standing(fmt, args, literal, |fmt|, a, done, total)
      requires Text() == was + done && (done == "" || Fits(|Text()|))
      modifies this, repr
      ensures Valid() && blocks + memory == old(blocks + memory) && fresh(repr - old(repr))
      ensures ok <==> total.good && (total.text == "" || old(Fits(|was| + |total.text|)))
      ensures ok ==> Text() == was + total.text
      ensures was <= Text() <= was + total.text
      ensures ok && old(NoEmptyBlock()) ==> NoEmptyBlock()
    {
      hide Output.Valid, Flatten, Ceiling, Standing;
      StandingAtEnd(fmt, args, literal, a, done, total);
      ok := true;
      if literal != |fmt| {
        ok := Append(fmt[literal..]);
        if !ok {
          Overflows(was, done, fmt[literal..], total.text);
        }
      }
    }
  }
}
