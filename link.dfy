/** The `connection` class: the attenuation estimate, and
    `DetectContamination` from the CLI text of both switches to the link
    record. The SSH sessions are not modelled: the command output of each
    switch, the clock reading and the power function are parameters. */
module Link {
  import opened Errors
  import opened Text
  import opened Scanner
  import opened Estimator
  import opened Drivers

  // ---------------------------------------------------------------------------
  // Reading the transceiver line of one port

  /** The transmit and receive power of one port, in mW. */
  datatype Reading = Reading(tx: real, rx: real)

  /** The text a line must contain to be taken as the port's line: `f'/{port}'`. */
  function PortKey(port: string): string {
    "/" + port
  }

  /** The body of the loop for a matching line: split it into words, read
      the words at the driver's positions (IndexError when the line is too
      short), and convert dBm readings to mW. */
  function LineReading(line: string, drv: Driver, pow: real -> real): (r: Result<Reading>)
    ensures r.Err? ==> r.error == IndexError || r.error == UnboundLocalError("value")
    ensures r.Err? && r.error == IndexError ==> drv.txPos >= |Words(line)| || drv.rxPos >= |Words(line)|
    ensures r.Ok? ==> drv.txPos < |Words(line)| && drv.rxPos < |Words(line)|
    ensures r.Ok? ==> StrToFloat(Words(line)[drv.txPos], drv.units).Ok?
    ensures r.Ok? ==> StrToFloat(Words(line)[drv.rxPos], drv.units).Ok?
    ensures r.Ok? && drv.units == Dbm ==>
      r.value == Reading(DbmToMw(pow, StrToFloat(Words(line)[drv.txPos], drv.units).value),
                         DbmToMw(pow, StrToFloat(Words(line)[drv.rxPos], drv.units).value))
    ensures r.Ok? && drv.units != Dbm ==>
      r.value == Reading(StrToFloat(Words(line)[drv.txPos], drv.units).value,
                         StrToFloat(Words(line)[drv.rxPos], drv.units).value)
  {
    var vals := Words(line);
    if drv.txPos >= |vals| then Err(IndexError)
    else
      match StrToFloat(vals[drv.txPos], drv.units)
      case Err(e) => Err(e)
      case Ok(tx) =>
        if drv.rxPos >= |vals| then Err(IndexError)
        else
          match StrToFloat(vals[drv.rxPos], drv.units)
          case Err(e) => Err(e)
          case Ok(rx) =>
            if drv.units == Dbm then Ok(Reading(DbmToMw(pow, tx), DbmToMw(pow, rx)))
            else Ok(Reading(tx, rx))
  }

  /** With a known unit, reading a line fails exactly when it has too few
      words for one of the two positions. */
  lemma LineReadingFailsIffShort(line: string, drv: Driver, pow: real -> real)
    requires drv.units == Milliwatt || drv.units == Dbm
    ensures LineReading(line, drv, pow).Err? <==>
      |Words(line)| <= drv.txPos || |Words(line)| <= drv.rxPos
    ensures LineReading(line, drv, pow).Err? ==> LineReading(line, drv, pow).error == IndexError
  {
  }

  /** A matching line on which the loop body raises. */
  predicate Fails(line: string, key: string, drv: Driver, pow: real -> real) {
    Contains(line, key) && LineReading(line, drv, pow).Err?
  }

  /** The index of the last line containing `key`. */
  function LastMatch(lines: seq<string>, key: string): (r: Option<nat>)
    ensures r.Some? ==> r.value < |lines| && Contains(lines[r.value], key)
    ensures r.Some? ==> forall j :: r.value < j < |lines| ==> !Contains(lines[j], key)
    ensures r.None? ==> forall j :: 0 <= j < |lines| ==> !Contains(lines[j], key)
    decreases |lines|
  {
    if |lines| == 0 then None
    else if Contains(lines[|lines| - 1], key) then Some(|lines| - 1)
    else LastMatch(lines[..|lines| - 1], key)
  }

  /** The index of the first line on which the loop raises. */
  function FirstFailure(lines: seq<string>, key: string, drv: Driver, pow: real -> real): (r: Option<nat>)
    ensures r.Some? ==> r.value < |lines| && Fails(lines[r.value], key, drv, pow)
    ensures r.Some? ==> forall j :: 0 <= j < r.value ==> !Fails(lines[j], key, drv, pow)
    ensures r.None? ==> forall j :: 0 <= j < |lines| ==> !Fails(lines[j], key, drv, pow)
    decreases |lines|
  {
    if |lines| == 0 then None
    else if Fails(lines[0], key, drv, pow) then Some(0)
    else
      match FirstFailure(lines[1..], key, drv, pow)
      case None => None
      case Some(i) => Some(i + 1)
  }

  /** What the loop over one switch's output leaves behind: the error of the
      first matching line that raises, otherwise the reading of the last
      matching line, or nothing when no line matches. */
  function PortReading(lines: seq<string>, key: string, drv: Driver, pow: real -> real): Result<Option<Reading>> {
    match FirstFailure(lines, key, drv, pow)
    case Some(i) => Err(LineReading(lines[i], drv, pow).error)
    case None =>
      match LastMatch(lines, key)
      case None => Ok(None)
      case Some(i) => Ok(Some(LineReading(lines[i], drv, pow).value))
  }

  lemma FirstFailureIs(lines: seq<string>, key: string, drv: Driver, pow: real -> real, i: nat)
    requires i < |lines| && Fails(lines[i], key, drv, pow)
    requires forall j :: 0 <= j < i ==> !Fails(lines[j], key, drv, pow)
    ensures FirstFailure(lines, key, drv, pow) == Some(i)
  {
  }

  lemma LastMatchIs(lines: seq<string>, key: string, i: nat)
    requires i < |lines| && Contains(lines[i], key)
    requires forall j :: i < j < |lines| ==> !Contains(lines[j], key)
    ensures LastMatch(lines, key) == Some(i)
  {
  }

  lemma NoFailure(lines: seq<string>, key: string, drv: Driver, pow: real -> real)
    requires forall j :: 0 <= j < |lines| ==> !Fails(lines[j], key, drv, pow)
    ensures FirstFailure(lines, key, drv, pow) == None
  {
  }

  lemma LastMatchStep(lines: seq<string>, key: string, i: nat)
    requires i < |lines|
    ensures LastMatch(lines[..i + 1], key) ==
      if Contains(lines[i], key) then Some(i) else LastMatch(lines[..i], key)
  {
    assert lines[..i + 1][..i] == lines[..i];
  }

  /** Reading line `i` after `i` lines that did not raise. */
  lemma FailureStep(lines: seq<string>, key: string, drv: Driver, pow: real -> real, i: nat)
    requires i < |lines|
    requires FirstFailure(lines[..i], key, drv, pow) == None
    ensures !Fails(lines[i], key, drv, pow) ==> FirstFailure(lines[..i + 1], key, drv, pow) == None
    ensures Fails(lines[i], key, drv, pow) ==>
      PortReading(lines, key, drv, pow) == Err(LineReading(lines[i], drv, pow).error)
  {
    var pre := lines[..i + 1];
    assert forall j :: 0 <= j < i ==> pre[j] == lines[..i][j] == lines[j];
    if Fails(lines[i], key, drv, pow) {
      FirstFailureIs(lines, key, drv, pow, i);
    } else {
      assert pre[i] == lines[i];
      NoFailure(pre, key, drv, pow);
    }
  }

  /** What the loop returns once every line has been read without raising. */
  lemma ScanComplete(lines: seq<string>, key: string, drv: Driver, pow: real -> real)
    requires FirstFailure(lines, key, drv, pow) == None
    ensures PortReading(lines, key, drv, pow) ==
      if LastMatch(lines, key).None? then Ok(None)
      else Ok(Some(LineReading(lines[LastMatch(lines, key).value], drv, pow).value))
  {
  }

  /** The loop of `DetectContamination` over one switch's output lines: the
      locals hold the reading of the last matching line seen so far, and the
      first matching line that cannot be read raises. */
  method ScanPort(lines: seq<string>, key: string, drv: Driver, pow: real -> real) returns (r: Result<Option<Reading>>)
    ensures r == PortReading(lines, key, drv, pow)
  {
    var found := false;
    var tx, rx := 0.0, 0.0;
    ghost var last := 0;
    var i := 0;
    while i < |lines|
      invariant 0 <= i <= |lines|
      invariant FirstFailure(lines[..i], key, drv, pow) == None
      invariant LastMatch(lines[..i], key) == if found then Some(last) else None
      invariant found ==> last < |lines| && LineReading(lines[last], drv, pow) == Ok(Reading(tx, rx))
    {
      var line := lines[i];
      LastMatchStep(lines, key, i);
      FailureStep(lines, key, drv, pow, i);
      if Contains(line, key) {
        var reading := LineReading(line, drv, pow);
        if reading.Err? {
          return Err(reading.error);
        }
        tx, rx := reading.value.tx, reading.value.rx;
        found, last := true, i;
      }
      i := i + 1;
    }
    assert lines[..i] == lines;
    ScanComplete(lines, key, drv, pow);
    if found {
      r := Ok(Some(Reading(tx, rx)));
    } else {
      r := Ok(None);
    }
  }

  /** What the loop leaves behind, stated by positions: the error of a
      matching line before which no matching line raised; or, when none
      raises, the reading of a matching line after which no line matches; or
      nothing exactly when no line matches. */
  lemma PortReadingMeaning(lines: seq<string>, key: string, drv: Driver, pow: real -> real)
    ensures PortReading(lines, key, drv, pow).Err? ==>
      exists i :: 0 <= i < |lines| && Fails(lines[i], key, drv, pow)
        && (forall j :: 0 <= j < i ==> !Fails(lines[j], key, drv, pow))
        && PortReading(lines, key, drv, pow).error == LineReading(lines[i], drv, pow).error
    ensures PortReading(lines, key, drv, pow).Err? <==>
      exists i :: 0 <= i < |lines| && Fails(lines[i], key, drv, pow)
    ensures PortReading(lines, key, drv, pow) == Ok(None) <==>
      forall i :: 0 <= i < |lines| ==> !Contains(lines[i], key)
    ensures PortReading(lines, key, drv, pow).Ok? && PortReading(lines, key, drv, pow).value.Some? ==>
      exists i :: 0 <= i < |lines| && Contains(lines[i], key)
        && (forall j :: i < j < |lines| ==> !Contains(lines[j], key))
        && LineReading(lines[i], drv, pow) == Ok(PortReading(lines, key, drv, pow).value.value)
  {
    var f := FirstFailure(lines, key, drv, pow);
    var m := LastMatch(lines, key);
    if f.Some? {
      assert Fails(lines[f.value], key, drv, pow);
    } else if m.Some? {
      assert Contains(lines[m.value], key);
      assert !Fails(lines[m.value], key, drv, pow);
    }
  }

  /** Appending a line that does not contain the key changes nothing. */
  lemma PortReadingSkipsOtherLines(lines: seq<string>, line: string, key: string, drv: Driver, pow: real -> real)
    requires !Contains(line, key)
    ensures PortReading(lines + [line], key, drv, pow) == PortReading(lines, key, drv, pow)
  {
    var ext := lines + [line];
    assert forall j :: 0 <= j < |lines| ==> ext[j] == lines[j];
    assert ext[..|lines|] == lines;
    match FirstFailure(lines, key, drv, pow)
    case Some(i) =>
      FirstFailureIs(ext, key, drv, pow, i);
    case None =>
      assert FirstFailure(ext, key, drv, pow) == None by {
        assert !Fails(ext[|lines|], key, drv, pow);
      }
  }

  /** Appending a matching line: an earlier failure stands; otherwise the new
      line's reading, or its failure, replaces whatever came before. */
  lemma PortReadingLastLineWins(lines: seq<string>, line: string, key: string, drv: Driver, pow: real -> real)
    requires Contains(line, key)
    ensures PortReading(lines + [line], key, drv, pow) ==
      if PortReading(lines, key, drv, pow).Err? then PortReading(lines, key, drv, pow)
      else match LineReading(line, drv, pow)
        case Err(e) => Err(e)
        case Ok(v) => Ok(Some(v))
  {
    var ext := lines + [line];
    var n := |lines|;
    assert forall j :: 0 <= j < n ==> ext[j] == lines[j];
    assert ext[n] == line;
    LastMatchIs(ext, key, n);
    match FirstFailure(lines, key, drv, pow)
    case Some(i) =>
      FirstFailureIs(ext, key, drv, pow, i);
    case None =>
      if LineReading(line, drv, pow).Err? {
        FirstFailureIs(ext, key, drv, pow, n);
      } else {
        assert FirstFailure(ext, key, drv, pow) == None by {
          assert !Fails(ext[n], key, drv, pow);
        }
      }
  }

  lemma WordsOfPortOneLine()
    ensures Words("0/1 Up 2.5 1.5") == ["0/1", "Up", "2.5", "1.5"]
  {
    assert Join(["0/1", "Up", "2.5", "1.5"], ' ') == "0/1 Up 2.5 1.5";
    WordsOfSpaced(["0/1", "Up", "2.5", "1.5"]);
  }

  lemma WordsOfPortTenLine()
    ensures Words("0/10 Up 0.5 0.25") == ["0/10", "Up", "0.5", "0.25"]
  {
    assert Join(["0/10", "Up", "0.5", "0.25"], ' ') == "0/10 Up 0.5 0.25";
    WordsOfSpaced(["0/10", "Up", "0.5", "0.25"]);
  }

  lemma SampleValues()
    ensures StrToFloat("0.5", Milliwatt) == Ok(0.5)
    ensures StrToFloat("0.25", Milliwatt) == Ok(0.25)
  {
    assert FindNumber("0.5") == Some(Span(0, 3)) by {
      assert DigitsEnd("0.5", 2) == 3;
    }
    assert "0.5"[0..3] == "0.5" && "0.5"[..1] == "0" && "0.5"[2..] == "5";
    assert FindNumber("0.25") == Some(Span(0, 4)) by {
      assert DigitsEnd("0.25", 2) == 4;
    }
    assert "0.25"[0..4] == "0.25" && "0.25"[..1] == "0" && "0.25"[2..] == "25";
    assert DigitsValue("25") == 25;
  }

  lemma SampleLinesContainPortOneKey()
    ensures Contains("0/1 Up 2.5 1.5", "/1") && Contains("0/10 Up 0.5 0.25", "/1")
  {
    var l0, l1 := "0/1 Up 2.5 1.5", "0/10 Up 0.5 0.25";
    assert l0[1] == '/' && l0[2] == '1' && l0[1..3] == "/1";
    assert l1[1] == '/' && l1[2] == '1' && l1[1..3] == "/1";
    assert OccursAt(l0, "/1", 1) && OccursAt(l1, "/1", 1);
  }

  lemma SampleLineReadings(pow: real -> real)
    ensures LineReading("0/1 Up 2.5 1.5", Driver("t", "c", Milliwatt, 2, 3), pow).Ok?
    ensures LineReading("0/10 Up 0.5 0.25", Driver("t", "c", Milliwatt, 2, 3), pow) == Ok(Reading(0.5, 0.25))
  {
    WordsOfPortOneLine();
    WordsOfPortTenLine();
    SampleValues();
    KnownUnitsNeverFail("dlink_dgs", "2.5");
    KnownUnitsNeverFail("dlink_dgs", "1.5");
  }

  /** The key of port 1 also matches the line of port 10, and the later line wins. */
  lemma PortTenLineOverridesPortOne(pow: real -> real)
    ensures PortReading(["0/1 Up 2.5 1.5", "0/10 Up 0.5 0.25"], PortKey("1"),
                        Driver("t", "c", Milliwatt, 2, 3), pow) == Ok(Some(Reading(0.5, 0.25)))
  {
    var lines := ["0/1 Up 2.5 1.5", "0/10 Up 0.5 0.25"];
    var drv := Driver("t", "c", Milliwatt, 2, 3);
    assert PortKey("1") == "/1";
    SampleLinesContainPortOneKey();
    SampleLineReadings(pow);
    LastMatchIs(lines, "/1", 1);
    assert FirstFailure(lines, "/1", drv, pow) == None by {
      assert !Fails(lines[0], "/1", drv, pow) && !Fails(lines[1], "/1", drv, pow);
    }
  }

  /** The loop finds nothing exactly when no line contains the key. */
  lemma PortReadingNoneIff(lines: seq<string>, key: string, drv: Driver, pow: real -> real)
    ensures PortReading(lines, key, drv, pow) == Ok(None) <==>
      forall j :: 0 <= j < |lines| ==> !Contains(lines[j], key)
  {
    if forall j :: 0 <= j < |lines| ==> !Contains(lines[j], key) {
      assert FirstFailure(lines, key, drv, pow) == None by {
        forall j | 0 <= j < |lines| ensures !Fails(lines[j], key, drv, pow) {
          assert !Contains(lines[j], key);
        }
      }
    }
  }

  // ---------------------------------------------------------------------------
  // The link record

  /** The row `DetectContamination` produces for a link. */
  datatype LinkRecord = LinkRecord(
    time: string, connection: string, ip1: string, ip2: string,
    nodeName1: string, nodeName2: string, port1: string, port2: string,
    powerLost1: real, powerLost2: real, score1: real, score2: real,
    threshold1: real, threshold2: real, contaminated: bool)

  /** What `DetectContamination` reads of a connection. */
  datatype LinkSetup = LinkSetup(
    name: string, node1: Node, node2: Node, port1: string, port2: string,
    delta: real, p1acc: real, p2acc: real)

  function Record(s: LinkSetup, now: string, v: LinkVerdict): LinkRecord {
    LinkRecord(now, s.name, s.node1.ip, s.node2.ip, s.node1.name, s.node2.name, s.port1, s.port2,
               v.dir1.powerLost, v.dir2.powerLost, v.dir1.score, v.dir2.score,
               v.dir1.threshold, v.dir2.threshold, v.contaminated)
  }

  /** The reading of port 1 and of port 2 that `Detect` works from. */
  function Reading1(s: LinkSetup, out1: string, pow: real -> real): Result<Option<Reading>> {
    PortReading(Split(out1, '\n'), PortKey(s.port1), s.node1.driver, pow)
  }

  function Reading2(s: LinkSetup, out2: string, pow: real -> real): Result<Option<Reading>> {
    PortReading(Split(out2, '\n'), PortKey(s.port2), s.node2.driver, pow)
  }

  /** `DetectContamination` on the command outputs `out1`, `out2` of the two
      switches, taken at time `now`. Reading a port that no line matched
      raises UnboundLocalError, node 1's transmit power being read first. */
  function Detect(s: LinkSetup, out1: string, out2: string, now: string, pow: real -> real): (r: Result<LinkRecord>)
    ensures r.Ok? ==> r.value.time == now && r.value.connection == s.name
    ensures r.Ok? ==> r.value.ip1 == s.node1.ip && r.value.ip2 == s.node2.ip
    ensures r.Ok? ==> r.value.nodeName1 == s.node1.name && r.value.nodeName2 == s.node2.name
    ensures r.Ok? ==> r.value.port1 == s.port1 && r.value.port2 == s.port2
    ensures r.Ok? ==> r.value.powerLost1 >= 0.0 && r.value.powerLost2 >= 0.0
    ensures r.Ok? ==> r.value.score1 >= 0.0 && r.value.score2 >= 0.0
    ensures r.Ok? ==> (r.value.contaminated <==>
      r.value.score1 >= r.value.threshold1 || r.value.score2 >= r.value.threshold2)
    ensures r.Err? ==> r.error in {IndexError, UnboundLocalError("value"), UnboundLocalError("n1Tx"),
                                   UnboundLocalError("n2Rx"), ZeroDivisionError}
  {
    match Reading1(s, out1, pow)
    case Err(e) => Err(e)
    case Ok(reading1) =>
      match Reading2(s, out2, pow)
      case Err(e) => Err(e)
      case Ok(reading2) =>
        if reading1.None? then Err(UnboundLocalError("n1Tx"))
        else if reading2.None? then Err(UnboundLocalError("n2Rx"))
        else
          match AssessLink(pow, reading1.value.tx, reading1.value.rx, reading2.value.tx, reading2.value.rx,
                           s.delta, s.p1acc, s.p2acc)
          case Err(e) => Err(e)
          case Ok(v) => Ok(Record(s, now, v))
  }

  /** A record is produced exactly when both ports were read and both
      switches transmit a non-zero power. */
  lemma DetectSucceedsIff(s: LinkSetup, out1: string, out2: string, now: string, pow: real -> real)
    requires IsPow10(pow)
    ensures Detect(s, out1, out2, now, pow).Ok? <==>
      && Reading1(s, out1, pow).Ok? && Reading1(s, out1, pow).value.Some?
      && Reading2(s, out2, pow).Ok? && Reading2(s, out2, pow).value.Some?
      && Reading1(s, out1, pow).value.value.tx != 0.0
      && Reading2(s, out2, pow).value.value.tx != 0.0
  {
    var p1, p2 := Reading1(s, out1, pow), Reading2(s, out2, pow);
    if p1.Ok? && p1.value.Some? && p2.Ok? && p2.value.Some? {
      var r1, r2 := p1.value.value, p2.value.value;
      AssessLinkFailsIffSilentEnd(pow, r1.tx, r1.rx, r2.tx, r2.rx, s.delta, s.p1acc, s.p2acc);
    }
  }

  /** Which error `Detect` raises, in the source's order: port 1's line
      error, then port 2's, then the unbound `n1Tx`, then the unbound `n2Rx`,
      then the division by zero of a silent transmitter. */
  lemma DetectErrorCause(s: LinkSetup, out1: string, out2: string, now: string, pow: real -> real)
    requires IsPow10(pow)
    ensures Reading1(s, out1, pow).Err? ==>
      Detect(s, out1, out2, now, pow) == Err(Reading1(s, out1, pow).error)
    ensures Reading1(s, out1, pow).Ok? && Reading2(s, out2, pow).Err? ==>
      Detect(s, out1, out2, now, pow) == Err(Reading2(s, out2, pow).error)
    ensures Reading1(s, out1, pow) == Ok(None) && Reading2(s, out2, pow).Ok? ==>
      Detect(s, out1, out2, now, pow) == Err(UnboundLocalError("n1Tx"))
    ensures Reading1(s, out1, pow).Ok? && Reading1(s, out1, pow).value.Some? && Reading2(s, out2, pow) == Ok(None) ==>
      Detect(s, out1, out2, now, pow) == Err(UnboundLocalError("n2Rx"))
    ensures (&& Reading1(s, out1, pow).Ok? && Reading1(s, out1, pow).value.Some?
             && Reading2(s, out2, pow).Ok? && Reading2(s, out2, pow).value.Some?
             && (Reading1(s, out1, pow).value.value.tx == 0.0 || Reading2(s, out2, pow).value.value.tx == 0.0)) ==>
      Detect(s, out1, out2, now, pow) == Err(ZeroDivisionError)
  {
    var p1, p2 := Reading1(s, out1, pow), Reading2(s, out2, pow);
    if p1.Ok? && p1.value.Some? && p2.Ok? && p2.value.Some? {
      var r1, r2 := p1.value.value, p2.value.value;
      AssessLinkFailsIffSilentEnd(pow, r1.tx, r1.rx, r2.tx, r2.rx, s.delta, s.p1acc, s.p2acc);
    }
  }

  /** The record's figures are `getCS(n1Tx, n2Rx, ...)` for direction 1 and
      `getCS(n2Tx, n1Rx, ...)` for direction 2, on the two ports' readings. */
  lemma DetectWiring(s: LinkSetup, out1: string, out2: string, now: string, pow: real -> real)
    requires Detect(s, out1, out2, now, pow).Ok?
    ensures Reading1(s, out1, pow).Ok? && Reading1(s, out1, pow).value.Some?
    ensures Reading2(s, out2, pow).Ok? && Reading2(s, out2, pow).value.Some?
    ensures
      var r1, r2 := Reading1(s, out1, pow).value.value, Reading2(s, out2, pow).value.value;
      var g1 := GetCS(pow, r1.tx, r2.rx, s.delta, s.p1acc, s.p2acc);
      var g2 := GetCS(pow, r2.tx, r1.rx, s.delta, s.p2acc, s.p1acc);
      var rec := Detect(s, out1, out2, now, pow).value;
      && g1.Ok? && g2.Ok?
      && rec.powerLost1 == g1.value.powerLost == Max(0.0, r1.tx - r2.rx)
      && rec.powerLost2 == g2.value.powerLost == Max(0.0, r2.tx - r1.rx)
      && rec.score1 == g1.value.score && rec.threshold1 == g1.value.threshold
      && rec.score2 == g2.value.score && rec.threshold2 == g2.value.threshold
      && (rec.contaminated <==> g1.value.contaminated || g2.value.contaminated)
  {
  }

  /** With positive transmit powers, the link is reported contaminated exactly
      when one direction's insertion loss reaches its PowerThresh, or that
      threshold is at most the direction's expected loss. */
  lemma DetectVerdictMeaning(s: LinkSetup, out1: string, out2: string, now: string, pow: real -> real)
    requires IsPow10(pow)
    requires Reading1(s, out1, pow).Ok? && Reading1(s, out1, pow).value.Some?
    requires Reading2(s, out2, pow).Ok? && Reading2(s, out2, pow).value.Some?
    requires Reading1(s, out1, pow).value.value.tx > 0.0 && Reading2(s, out2, pow).value.value.tx > 0.0
    ensures Detect(s, out1, out2, now, pow).Ok?
    ensures
      var r1, r2 := Reading1(s, out1, pow).value.value, Reading2(s, out2, pow).value.value;
      Detect(s, out1, out2, now, pow).value.contaminated <==>
        (r1.tx - r2.rx >= PowerThresh(pow, r1.tx, r2.rx, s.delta, s.p1acc, s.p2acc) ||
         PowerThresh(pow, r1.tx, r2.rx, s.delta, s.p1acc, s.p2acc) <= Alpha(pow, r1.tx, s.delta)) ||
        (r2.tx - r1.rx >= PowerThresh(pow, r2.tx, r1.rx, s.delta, s.p2acc, s.p1acc) ||
         PowerThresh(pow, r2.tx, r1.rx, s.delta, s.p2acc, s.p1acc) <= Alpha(pow, r2.tx, s.delta))
  {
    var r1, r2 := Reading1(s, out1, pow).value.value, Reading2(s, out2, pow).value.value;
    LinkVerdictMeaning(pow, r1.tx, r1.rx, r2.tx, r2.rx, s.delta, s.p1acc, s.p2acc);
  }

  /** A record is produced only when both outputs have a line for the port. */
  lemma DetectNeedsPortLines(s: LinkSetup, out1: string, out2: string, now: string, pow: real -> real)
    requires Detect(s, out1, out2, now, pow).Ok?
    ensures exists i :: 0 <= i < |Split(out1, '\n')| && Contains(Split(out1, '\n')[i], PortKey(s.port1))
    ensures exists i :: 0 <= i < |Split(out2, '\n')| && Contains(Split(out2, '\n')[i], PortKey(s.port2))
  {
    var lines1, lines2 := Split(out1, '\n'), Split(out2, '\n');
    PortReadingNoneIff(lines1, PortKey(s.port1), s.node1.driver, pow);
    PortReadingNoneIff(lines2, PortKey(s.port2), s.node2.driver, pow);
  }

  // ---------------------------------------------------------------------------
  // Attenuation

  /** dB/km by fibre mode and wavelength key. */
  const AttenuationTable: map<string, map<string, real>> := map[
    "SM" := map["1310" := 0.4, "1550" := 0.3],
    "MM" := map["850" := 3.5, "1300" := 1.5]
  ]

  /** `M[mode][wavelength]`: KeyError on the mode first, then on the wavelength. */
  function Coefficient(mode: string, wavelength: string): (r: Result<real>)
    ensures r.Ok? <==>
      (mode == "SM" && (wavelength == "1310" || wavelength == "1550")) ||
      (mode == "MM" && (wavelength == "850" || wavelength == "1300"))
    ensures r.Ok? ==> r.value > 0.0
    ensures r.Err? ==> r.error == KeyError(if mode == "SM" || mode == "MM" then wavelength else mode)
  {
    if mode !in AttenuationTable then Err(KeyError(mode))
    else if wavelength !in AttenuationTable[mode] then Err(KeyError(wavelength))
    else Ok(AttenuationTable[mode][wavelength])
  }

  /** The expected loss of a fibre `length` metres long, with a 0.75 dB
      connector margin. */
  function Attenuation(length: real, mode: string, wavelength: string): (r: Result<real>)
    ensures r.Ok? <==> Coefficient(mode, wavelength).Ok?
    ensures r.Err? ==> r.error == Coefficient(mode, wavelength).error
    ensures r.Ok? && length >= 0.0 ==> r.value >= 0.75
  {
    match Coefficient(mode, wavelength)
    case Err(e) => Err(e)
    case Ok(coef) => Ok(coef * (length / 1000.0) + 0.75)
  }

  /** One kilometre of single-mode fibre at 1310 nm. */
  lemma AttenuationExample()
    ensures Attenuation(1000.0, "SM", "1310") == Ok(1.15)
  {
  }

  /** A longer fibre loses strictly more. */
  lemma AttenuationIncreasing(l1: real, l2: real, mode: string, wavelength: string)
    requires Coefficient(mode, wavelength).Ok?
    requires l1 < l2
    ensures Attenuation(l1, mode, wavelength).value < Attenuation(l2, mode, wavelength).value
  {
    var c := Coefficient(mode, wavelength).value;
    assert c * (l2 / 1000.0) - c * (l1 / 1000.0) == c * ((l2 - l1) / 1000.0);
  }

  /** The fibre length can be recovered from the attenuation. */
  lemma LengthFromAttenuation(length: real, mode: string, wavelength: string)
    requires Coefficient(mode, wavelength).Ok?
    ensures (Attenuation(length, mode, wavelength).value - 0.75) / Coefficient(mode, wavelength).value * 1000.0 == length
  {
    var c := Coefficient(mode, wavelength).value;
    assert (c * (length / 1000.0)) / c == length / 1000.0;
  }

  // ---------------------------------------------------------------------------
  // The connection object

  class Connection {
    var name: string
    var node1: Node
    var node2: Node
    var port1: string
    var port2: string
    /** The expected non-contaminant loss shared by both directions. */
    var delta: real
    var p1acc: real
    var p2acc: real
    /** The last record `DetectContamination` produced, if any. */
    var dic: Option<LinkRecord>

    constructor (name: string, node1: Node, node2: Node, port1: string, port2: string,
                 delta: real := 0.0, p1acc: real := 1.0, p2acc: real := 1.0)
      ensures this.name == name && this.node1 == node1 && this.node2 == node2
      ensures this.port1 == port1 && this.port2 == port2
      ensures this.delta == delta && this.p1acc == p1acc && this.p2acc == p2acc
      ensures this.dic == None
    {
      this.name := name;
      this.node1 := node1;
      this.node2 := node2;
      this.port1 := port1;
      this.port2 := port2;
      this.delta := delta;
      this.p1acc := p1acc;
      this.p2acc := p2acc;
      this.dic := None;
    }

    function Setup(): LinkSetup
      reads this
    {
      LinkSetup(name, node1, node2, port1, port2, delta, p1acc, p2acc)
    }

    /** `calculateAttenuation`: on success the estimate becomes `delta`; on a
        KeyError nothing changes. */
    method CalculateAttenuation(length: real, mode: string, wavelength: string) returns (r: Result<real>)
      modifies this`delta
      ensures r == Attenuation(length, mode, wavelength)
      ensures delta == if r.Ok? then r.value else old(delta)
    {
      var coef := Coefficient(mode, wavelength);
      if coef.Err? {
        return Err(coef.error);
      }
      var att := coef.value * (length / 1000.0) + 0.75;
      delta := att;
      r := Ok(att);
    }

    /** `DetectContamination`, given what the two switches printed for their
        drivers' commands. On success the record is kept in `dic`. */
    method DetectContamination(out1: string, out2: string, now: string, pow: real -> real) returns (r: Result<LinkRecord>)
      modifies this`dic
      ensures r == Detect(Setup(), out1, out2, now, pow)
      ensures dic == if r.Ok? then Some(r.value) else old(dic)
    {
      var reading1 := ScanPort(Split(out1, '\n'), PortKey(port1), node1.driver, pow);
      if reading1.Err? {
        return Err(reading1.error);
      }
      var reading2 := ScanPort(Split(out2, '\n'), PortKey(port2), node2.driver, pow);
      if reading2.Err? {
        return Err(reading2.error);
      }
      if reading1.value.None? {
        return Err(UnboundLocalError("n1Tx"));
      }
      if reading2.value.None? {
        return Err(UnboundLocalError("n2Rx"));
      }
      var n1, n2 := reading1.value.value, reading2.value.value;
      var verdict := AssessLink(pow, n1.tx, n1.rx, n2.tx, n2.rx, delta, p1acc, p2acc);
      if verdict.Err? {
        return Err(verdict.error);
      }
      var res := Record(Setup(), now, verdict.value);
      dic := Some(res);
      r := Ok(res);
    }
  }
}
