/** Request bundles (scripts/reqbundle.py): a line reader over standard
    input and the extraction of the payload framed by the BEGIN and END
    marker lines. Decryption itself (base64 and AES-CTR) is a parameter. */
module RequestBundles {
  import opened Wrappers
  import opened Text
  import opened Scripts

  const BeginMarker := "-----BEGIN OPENPARCEL BUNDLE-----"
  // One more dash on each side than the BEGIN marker, as in the source.
  const EndMarker := "------END OPENPARCEL BUNDLE------"

  /** The process's standard input: the characters it will deliver and how
      many of them have been read so far. */
  class StdIn {
    const data: string
    var pos: nat

    ghost predicate Valid()
      reads this
    {
      pos <= |data|
    }

    /** What is still to be read. */
    function Rest(): string
      reads this
      requires Valid()
    {
      data[pos..]
    }

    constructor (data: string)
      ensures Valid() && this.data == data && pos == 0
    {
      this.data := data;
      pos := 0;
    }

    /** `read(1)`: the next character, or `''` once the input is exhausted. */
    method Read1() returns (c: string)
      requires Valid()
      modifies this
      ensures Valid()
      ensures old(pos) < |data| ==> c == [data[old(pos)]] && pos == old(pos) + 1
      ensures old(pos) == |data| ==> c == "" && pos == old(pos)
    {
      if pos < |data| {
        c := [data[pos]];
        pos := pos + 1;
      } else {
        c := "";
      }
    }
  }

  // ---------------------------------------------------------------------
  // Specification of the line reader

  /** `s` with every carriage return removed. */
  function DropCR(s: string): (r: string)
    ensures '\r' !in r
    ensures '\n' !in s ==> '\n' !in r
  {
    if s == [] then ""
    else (if s[0] == '\r' then "" else [s[0]]) + DropCR(s[1..])
  }

  /** The lines an iteration over the reader yields: each ends at a
      `'\n'` (not included), carriage returns are dropped, and characters
      after the last `'\n'` never form a line. */
  function Lines(s: string): seq<string>
    decreases |s|
  {
    if '\n' !in s then []
    else
      var k := IndexOf(s, '\n');
      [DropCR(s[..k])] + Lines(s[k + 1..])
  }

  /** The longest prefix of `s` that ends with a `'\n'` (empty when there
      is none): the part of the input that is delivered as lines. */
  function Complete(s: string): (r: string)
    ensures |r| <= |s| && r == s[..|r|]
    ensures r == [] || r[|r| - 1] == '\n'
    ensures '\n' !in s[|r|..]
  {
    if s == [] then ""
    else if s[|s| - 1] == '\n' then s
    else Complete(s[..|s| - 1])
  }

  /** Lines written back with their terminators. */
  function Unlines(lines: seq<string>): string
  {
    if lines == [] then "" else lines[0] + "\n" + Unlines(lines[1..])
  }

  /** One line yielded by `__next__` never contains a `'\n'` or `'\r'`. */
  lemma {:induction false} LinesAreClean(s: string)
    ensures forall i :: 0 <= i < |Lines(s)| ==> '\n' !in Lines(s)[i] && '\r' !in Lines(s)[i]
    decreases |s|
  {
    if '\n' in s {
      var k := IndexOf(s, '\n');
      LinesAreClean(s[k + 1..]);
    }
  }

  lemma {:induction false} DropCRAppend(a: string, b: string)
    ensures DropCR(a + b) == DropCR(a) + DropCR(b)
    decreases |a|
  {
    var s := a + b;
    if a != [] {
      var head := if a[0] == '\r' then "" else [a[0]];
      assert s[0] == a[0] && s[1..] == a[1..] + b;
      assert DropCR(s) == head + DropCR(s[1..]);
      assert DropCR(a) == head + DropCR(a[1..]);
      DropCRAppend(a[1..], b);
    } else {
      assert s == b;
    }
  }

  lemma UnlinesCons(x: string, ys: seq<string>)
    ensures Unlines([x] + ys) == x + "\n" + Unlines(ys)
  {
    assert ([x] + ys)[1..] == ys;
  }

  lemma DropCRAround(c: string, k: nat)
    requires k < |c| && c[k] == '\n'
    ensures DropCR(c) == DropCR(c[..k]) + "\n" + DropCR(c[k + 1..])
  {
    var before, tail, after := c[..k], c[k..], c[k + 1..];
    assert c == before + tail;
    DropCRAppend(before, tail);
    assert tail[0] == '\n' && tail[1..] == after;
    var x, y := DropCR(before), DropCR(after);
    assert DropCR(tail) == "\n" + y;
    assert x + ("\n" + y) == x + "\n" + y;
  }

  /** One step of `UnlinesOfComplete`: the first line and what follows it. */
  lemma UnlinesStep(c: string) returns (line: string, rest: string)
    requires c != [] && c[|c| - 1] == '\n'
    ensures |rest| < |c| && (rest == [] || rest[|rest| - 1] == '\n')
    ensures Unlines(Lines(c)) == line + "\n" + Unlines(Lines(rest))
    ensures DropCR(c) == line + "\n" + DropCR(rest)
  {
    assert '\n' in c by { assert c[|c| - 1] == '\n'; }
    var k := IndexOf(c, '\n');
    line, rest := DropCR(c[..k]), c[k + 1..];
    assert rest == [] || rest[|rest| - 1] == '\n' by {
      if rest != [] {
        assert rest[|rest| - 1] == c[|c| - 1];
      }
    }
    assert Lines(c) == [line] + Lines(rest);
    UnlinesCons(line, Lines(rest));
    DropCRAround(c, k);
  }

  lemma {:induction false} UnlinesOfComplete(c: string)
    requires c == [] || c[|c| - 1] == '\n'
    ensures Unlines(Lines(c)) == DropCR(c)
    decreases |c|
  {
    if c != [] {
      var line, rest := UnlinesStep(c);
      UnlinesOfComplete(rest);
    }
  }

  lemma {:induction false} LinesIgnoreTail(c: string, t: string)
    requires c == [] || c[|c| - 1] == '\n'
    requires '\n' !in t
    ensures Lines(c + t) == Lines(c)
    decreases |c|
  {
    if c == [] {
      assert c + t == t;
    } else {
      assert '\n' in c by { assert c[|c| - 1] == '\n'; }
      var k := IndexOf(c, '\n');
      assert (c + t)[..k] == c[..k];
      assert (c + t)[k] == '\n';
      assert IndexOf(c + t, '\n') == k;
      assert (c + t)[k + 1..] == c[k + 1..] + t;
      LinesIgnoreTail(c[k + 1..], t);
    }
  }

  /** Reading every line back with its `'\n'` restores the input up to the
      last `'\n'` with all `'\r'` removed: nothing else is lost, and the
      unterminated tail is what is discarded. */
  lemma LinesRoundTrip(s: string)
    ensures Unlines(Lines(s)) == DropCR(Complete(s))
  {
    var c := Complete(s);
    assert s == c + s[|c|..];
    LinesIgnoreTail(c, s[|c|..]);
    UnlinesOfComplete(c);
  }

  lemma DropDrop(s: string, a: nat, b: nat)
    requires a + b <= |s|
    ensures s[a..][b..] == s[a + b..]
  {
  }

  /** The first `'\n'` of `r` at `k` splits off the first line. */
  lemma FirstLine(r: string, k: nat)
    requires k < |r| && r[k] == '\n' && '\n' !in r[..k]
    ensures IndexOf(r, '\n') == k
    ensures Lines(r) == [DropCR(r[..k])] + Lines(r[k + 1..])
  {
    IndexOfAt(r, '\n', k);
  }

  /** A `'\n'` at `before`, with none since `start`, ends the first line
      of what is left from `start`. */
  lemma LineAt(data: string, start: nat, before: nat)
    requires start <= before < |data| && data[before] == '\n' && '\n' !in data[start..before]
    ensures '\n' in data[start..] && IndexOf(data[start..], '\n') == before - start
    ensures data[start..][..before - start] == data[start..before]
    ensures data[start..][before - start + 1..] == data[before + 1..]
    ensures Lines(data[start..]) == [DropCR(data[start..before])] + Lines(data[before + 1..])
  {
    var r, k := data[start..], before - start;
    assert r[..k] == data[start..before];
    assert r[k + 1..] == data[before + 1..];
    IndexOfAt(r, '\n', k);
  }

  /** `InputLineStream`. The stream it is built with is stored and never
      read: `__next__` reads the process's standard input instead. */
  class InputLineStream {
    const inStream: StdIn

    constructor (inStream: StdIn)
      ensures this.inStream == inStream
    {
      this.inStream := inStream;
    }

    /** `__next__`: consumes characters up to and including the first
        `'\n'` and returns them without it and without any `'\r'`; at the
        end of the input it consumes the unterminated rest and stops
        (`StopIteration`, here `None`). */
    method Next(stdin: StdIn) returns (line: Option<string>)
      requires stdin.Valid()
      modifies stdin
      ensures stdin.Valid()
      ensures '\n' in old(stdin.Rest()) ==>
                var k := IndexOf(old(stdin.Rest()), '\n');
                line == Some(DropCR(old(stdin.Rest())[..k])) && stdin.pos == old(stdin.pos) + k + 1
      ensures '\n' in old(stdin.Rest()) ==>
                stdin.Rest() == old(stdin.Rest())[IndexOf(old(stdin.Rest()), '\n') + 1..]
      ensures '\n' !in old(stdin.Rest()) ==> line == None && stdin.pos == |stdin.data|
      ensures line.None? ==> Lines(old(stdin.Rest())) == []
      ensures line.Some? ==> Lines(old(stdin.Rest())) == [line.value] + Lines(stdin.Rest())
                             && |stdin.Rest()| < |old(stdin.Rest())|
    {
      ghost var start, rest := stdin.pos, stdin.Rest();
      var acc, found := ScanLine(stdin);
      if found {
        LineAt(stdin.data, start, stdin.pos - 1);
        assert stdin.Rest() == stdin.data[stdin.pos..];
        line := Some(acc);
      } else {
        line := None;
      }
    }

    /** The loop of `__next__`: reads up to and including the first `'\n'`,
        or to the end of the input when there is none, collecting every
        character but `'\r'`. */
    method ScanLine(stdin: StdIn) returns (acc: string, found: bool)
      requires stdin.Valid()
      modifies stdin
      ensures stdin.Valid() && old(stdin.pos) <= stdin.pos
      ensures found ==> old(stdin.pos) < stdin.pos && stdin.data[stdin.pos - 1] == '\n'
                        && '\n' !in stdin.data[old(stdin.pos)..stdin.pos - 1]
                        && acc == DropCR(stdin.data[old(stdin.pos)..stdin.pos - 1])
      ensures !found ==> stdin.pos == |stdin.data| && '\n' !in stdin.data[old(stdin.pos)..]
    {
      ghost var start := stdin.pos;
      acc := "";
      while true
        invariant stdin.Valid() && start <= stdin.pos
        invariant '\n' !in stdin.data[start..stdin.pos]
        invariant acc == DropCR(stdin.data[start..stdin.pos])
        decreases |stdin.data| - stdin.pos
      {
        ghost var before := stdin.pos;
        var c := stdin.Read1();
        if c == "" {
          assert stdin.data[start..] == stdin.data[start..before];
          return acc, false;
        }
        if c == "\n" {
          return acc, true;
        }
        DropCRAppend(stdin.data[start..before], c);
        assert stdin.data[start..stdin.pos] == stdin.data[start..before] + c;
        if c == "\r" {
          continue;
        }
        acc := acc + c;
      }
    }
  }


  // ---------------------------------------------------------------------
  // Bundle extraction

  /** What the loop of `read_bundle` collects from the lines still to be
      read, given whether it is already inside the bundle. */
  function Collect(lines: seq<string>, reading: bool): string
  {
    if lines == [] then ""
    else if lines[0] == BeginMarker then Collect(lines[1..], true)
    else if reading && lines[0] == EndMarker then ""
    else if reading then lines[0] + Collect(lines[1..], true)
    else Collect(lines[1..], false)
  }

  /** Index of the first `x` in `xs`, or `|xs|` when there is none. */
  function Find(xs: seq<string>, x: string): (k: nat)
    ensures k <= |xs| && x !in xs[..k]
    ensures k < |xs| ==> xs[k] == x
    ensures k == |xs| <==> x !in xs
  {
    if xs == [] then 0 else if xs[0] == x then 0 else 1 + Find(xs[1..], x)
  }

  /** `xs` without any occurrence of `x`, order kept. */
  function Without(xs: seq<string>, x: string): (r: seq<string>)
    ensures x !in r
  {
    if xs == [] then []
    else (if xs[0] == x then [] else [xs[0]]) + Without(xs[1..], x)
  }

  /** The payload as the framing defines it: the concatenation, without
      separators, of the lines strictly between the first BEGIN line and the
      first END line after it (or the end of input), leaving out any repeated
      BEGIN line; empty when there is no BEGIN line. */
  function Payload(lines: seq<string>): string
  {
    var b := Find(lines, BeginMarker);
    if b == |lines| then ""
    else
      var body := lines[b + 1..];
      Concat(Without(body[..Find(body, EndMarker)], BeginMarker))
  }

  lemma ConcatCons(x: string, ys: seq<string>)
    ensures Concat([x] + ys) == x + Concat(ys)
  {
    assert ([x] + ys)[1..] == ys;
  }

  lemma {:induction false} CollectInside(xs: seq<string>)
    ensures Collect(xs, true) == Concat(Without(xs[..Find(xs, EndMarker)], BeginMarker))
    decreases |xs|
  {
    if xs != [] && xs[0] != EndMarker {
      CollectInside(xs[1..]);
      var f := Find(xs, EndMarker);
      var g := Find(xs[1..], EndMarker);
      assert f == 1 + g;
      var front := xs[..f];
      assert front[0] == xs[0];
      assert front[1..] == xs[1..][..g];
      var tail := Without(xs[1..][..g], BeginMarker);
      if xs[0] == BeginMarker {
        assert Without(front, BeginMarker) == tail;
      } else {
        assert Without(front, BeginMarker) == [xs[0]] + tail;
        ConcatCons(xs[0], tail);
      }
    }
  }

  /** The collecting loop computes exactly the framed payload. */
  lemma {:induction false} CollectIsPayload(lines: seq<string>)
    ensures Collect(lines, false) == Payload(lines)
    decreases |lines|
  {
    if lines != [] {
      if lines[0] == BeginMarker {
        CollectInside(lines[1..]);
      } else {
        CollectIsPayload(lines[1..]);
        var b := Find(lines, BeginMarker);
        assert b == 1 + Find(lines[1..], BeginMarker);
        assert b < |lines| ==> lines[b + 1..] == lines[1..][b..];
      }
    }
  }

  lemma MarkersDiffer()
    ensures BeginMarker != EndMarker
  {
    assert BeginMarker[5] != EndMarker[5];
  }

  /** `Find` is the first index holding `x`. */
  lemma {:induction false} FindAt(xs: seq<string>, x: string, k: nat)
    requires k < |xs| && xs[k] == x && x !in xs[..k]
    ensures Find(xs, x) == k
    decreases k
  {
    if k > 0 {
      assert xs[..k][0] == xs[0];
      assert xs[1..][..k - 1] == xs[..k][1..];
      FindAt(xs[1..], x, k - 1);
    }
  }

  /** The framing: whatever comes before the first BEGIN line (an END line
      included) and after the first END line that follows it is ignored,
      and repeated BEGIN lines in between are dropped. */
  lemma PayloadFraming(pre: seq<string>, mid: seq<string>, post: seq<string>)
    requires BeginMarker !in pre && EndMarker !in mid
    ensures Payload(pre + [BeginMarker] + mid + [EndMarker] + post) == Concat(Without(mid, BeginMarker))
  {
    var body := mid + [EndMarker] + post;
    assert pre + [BeginMarker] + mid + [EndMarker] + post == pre + [BeginMarker] + body;
    PayloadAfterBegin(pre, body);
    BodyBeforeEnd(mid, post);
  }

  /** The payload is read from what follows the first BEGIN line. */
  lemma PayloadAfterBegin(pre: seq<string>, body: seq<string>)
    requires BeginMarker !in pre
    ensures Payload(pre + [BeginMarker] + body) == Concat(Without(body[..Find(body, EndMarker)], BeginMarker))
  {
    var lines := pre + [BeginMarker] + body;
    assert lines[|pre|] == BeginMarker && lines[..|pre|] == pre && lines[|pre| + 1..] == body;
    FindAt(lines, BeginMarker, |pre|);
  }

  /** The part before the first END line. */
  lemma BodyBeforeEnd(mid: seq<string>, post: seq<string>)
    requires EndMarker !in mid
    ensures var body := mid + [EndMarker] + post; body[..Find(body, EndMarker)] == mid
  {
    var body := mid + [EndMarker] + post;
    assert body[|mid|] == EndMarker && body[..|mid|] == mid;
    FindAt(body, EndMarker, |mid|);
  }

  lemma FramedLines<T>(e: T, z: T, b: T, a: T, c: T, f: T)
    ensures [e, z] + [b] + [a, b, c] + [e] + [f] == [e, z, b, a, b, c, e, f]
  {
  }

  lemma WithoutMiddle(a: string, b: string, c: string)
    requires a != b && c != b
    ensures Without([a, b, c], b) == [a, c]
  {
    assert [a, b, c][1..] == [b, c] && [b, c][1..] == [c] && [c][1..] == [];
    assert Without([c], b) == [c];
    assert Without([b, c], b) == [c];
  }

  /** A worked framing: an END line before BEGIN is ignored, a repeated BEGIN
      line is dropped, and lines after END are not part of the payload. */
  lemma PayloadExample(z: string, a: string, c: string, f: string)
    requires z != BeginMarker && a != BeginMarker && c != BeginMarker
    requires a != EndMarker && c != EndMarker
    ensures Payload([EndMarker, z, BeginMarker, a, BeginMarker, c, EndMarker, f]) == a + c
  {
    MarkersDiffer();
    var b, e := BeginMarker, EndMarker;
    PayloadFraming([e, z], [a, b, c], [f]);
    FramedLines(e, z, b, a, c, f);
    WithoutMiddle(a, b, c);
    ConcatCons(a, [c]);
    ConcatCons(c, []);
  }

  /** Index in `lines` just past the last line `read_bundle` takes from the
      stream: the END line that stops it, or every line. */
  function Consumed(lines: seq<string>, reading: bool): (n: nat)
    ensures n <= |lines|
  {
    if lines == [] then 0
    else if lines[0] == BeginMarker then 1 + Consumed(lines[1..], true)
    else if reading && lines[0] == EndMarker then 1
    else 1 + Consumed(lines[1..], reading)
  }

  /** What `read_bundle` knows after taking `taken` lines of `all`:
      `remaining` is the rest, and `enc` and `reading` are such that the
      remaining lines complete the payload and the count of lines it will
      take. */
  ghost predicate ScanInv(all: seq<string>, remaining: seq<string>, taken: nat, reading: bool, enc: string)
  {
    && taken <= |all| && remaining == all[taken..]
    && taken + Consumed(remaining, reading) == Consumed(all, false)
    && enc + Collect(remaining, reading) == Collect(all, false)
  }

  /** One iteration of the loop of `read_bundle` keeps `ScanInv`, or ends the
      scan with the whole payload when the line is the END marker. */
  lemma ScanStep(all: seq<string>, line: string, tail: seq<string>, taken: nat, reading: bool, enc: string)
    requires ScanInv(all, [line] + tail, taken, reading, enc)
    ensures line == BeginMarker ==> ScanInv(all, tail, taken + 1, true, enc)
    ensures line != BeginMarker && reading && line == EndMarker ==>
              enc == Collect(all, false) && tail == all[Consumed(all, false)..]
    ensures line != BeginMarker && reading && line != EndMarker ==>
              ScanInv(all, tail, taken + 1, true, enc + line)
    ensures line != BeginMarker && !reading ==> ScanInv(all, tail, taken + 1, false, enc)
  {
    assert ([line] + tail)[1..] == tail;
    assert all[taken + 1..] == all[taken..][1..];
    if line != BeginMarker && reading && line != EndMarker {
      assert enc + line + Collect(tail, true) == enc + (line + Collect(tail, true));
    }
  }

  /** `RequestBundle.read_bundle`: iterates over the stream until the line
      that ends the bundle (or the end of input) and hands the framed payload
      to `decrypt`. */
  method ReadBundle(stream: InputLineStream, stdin: StdIn, decrypt: string -> string)
    returns (bundle: string, ghost payload: string)
    requires stdin.Valid()
    modifies stdin
    ensures stdin.Valid() && stdin.pos >= old(stdin.pos)
    ensures payload == Payload(Lines(old(stdin.Rest())))
    ensures bundle == decrypt(payload)
    ensures var all := Lines(old(stdin.Rest()));
            Lines(stdin.Rest()) == all[Consumed(all, false)..]
  {
    ghost var all := Lines(stdin.Rest());
    ghost var remaining := all;
    ghost var taken := 0;
    var reading := false;
    var enc := "";
    while true
      invariant stdin.Valid() && stdin.pos >= old(stdin.pos)
      invariant remaining == Lines(stdin.Rest())
      invariant ScanInv(all, remaining, taken, reading, enc)
      decreases |stdin.Rest()|
    {
      var next := stream.Next(stdin);
      if next.None? {
        break;
      }
      var line := next.value;
      ghost var tail := Lines(stdin.Rest());
      ScanStep(all, line, tail, taken, reading, enc);
      remaining, taken := tail, taken + 1;
      if line == BeginMarker {
        reading := true;
        continue;
      }
      if reading {
        if line == EndMarker {
          break;
        }
        enc := enc + line;
      }
    }
    CollectIsPayload(all);
    payload := enc;
    bundle := decrypt(enc);
  }

  /** `DecodeAction.perform`: decrypts the argument when one is given and
      reads a bundle from standard input only when it is `None`; returns the
      text it hands to `print`, which adds its own newline. */
  method DecodePerform(encBundle: Option<string>, stream: InputLineStream, stdin: StdIn,
                       decrypt: string -> string)
    returns (printed: string)
    requires stdin.Valid()
    modifies stdin
    ensures stdin.Valid()
    ensures encBundle.Some? ==> printed == "\n\n" + decrypt(encBundle.value) && stdin.pos == old(stdin.pos)
    ensures encBundle.None? ==> printed == "\n\n" + decrypt(Payload(Lines(old(stdin.Rest()))))
  {
    var data: string;
    if encBundle.Some? {
      data := decrypt(encBundle.value);
    } else {
      ghost var payload;
      data, payload := ReadBundle(stream, stdin, decrypt);
    }
    printed := "\n\n" + data;
  }

  /** `RequestBundleCommand()`: the `reqbundle` command with its default
      `decode` action, which declares no arguments, followed by `help`. */
  method NewRequestBundleCommand(parent: Manager?) returns (c: Command)
    ensures fresh(c) && c.name == "reqbundle" && c.parent == parent
    ensures c.description == "Deals with carrier request bundles"
    ensures DecodeShaped(c) && c.Valid()
  {
    var decode := new Action("decode", "Decodes a carrier request bundle", None, true, AsGiven);
    c := new Command("reqbundle", "Deals with carrier request bundles", parent, [decode]);
  }

  /** The two actions of a `reqbundle` command, neither of which declares
      arguments. */
  predicate DecodeShaped(c: Command)
    reads c, c.actions
  {
    && |c.actions| == 2
    && c.actions[0].name == "decode" && c.actions[0].isDefault && c.actions[0].arguments.None?
    && c.actions[1].name == "help" && !c.actions[1].isDefault && c.actions[1].arguments.None?
  }

  /** From the command line `decode` is always performed without an
      argument, so it always reads the bundle from standard input: its
      `arguments` is `None`, and `perform_from_cli` then ignores the rest of
      argv. A bare command line also performs it, being the default. */
  lemma DecodeReadsStdin(c: Command, argv: seq<string>)
    requires c.Valid() && DecodeShaped(c)
    ensures c.Argnum(argv) == 0 ==> c.RunOutcome(argv) == Perform(c.actions[0], Bare)
    ensures c.Argnum(argv) > 0 && Lower(argv[c.ArgIndex(0)]) == "decode" ==>
              c.RunOutcome(argv) == Perform(c.actions[0], Bare)
    ensures c.Argnum(argv) > 0 && Lower(argv[c.ArgIndex(0)]) == "help" ==>
              c.RunOutcome(argv) == Perform(c.actions[1], Bare)
    ensures c.Argnum(argv) > 0 && Lower(argv[c.ArgIndex(0)]) !in {"decode", "help"} ==>
              c.RunOutcome(argv) == Exit("Unknown action " + Lower(argv[c.ArgIndex(0)]) + ".\n", 1)
    ensures c.Argnum(argv) < 0 ==> c.RunOutcome(argv) == Raise("IndexError")
  {
    FindDefaultIsFirst(c.actions, 0);
    if c.Argnum(argv) > 0 {
      var req := Lower(argv[c.ArgIndex(0)]);
      if req == "decode" {
        FindActionIsFirst(c.actions, req, 0);
      } else if req == "help" {
        FindActionIsFirst(c.actions, req, 1);
      } else {
        FindActionIsFirst(c.actions, req, 2);
      }
    }
  }
}
