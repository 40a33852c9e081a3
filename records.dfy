/**
 * The two persisted slots of the controller, `door_state` and `door_mode`.
 * Each is a text record that may be missing (`None`), hold one of its two
 * tokens followed by a newline, or hold anything else. Reading a record
 * keeps the first line with surrounding whitespace stripped; a token is
 * recognised only by exact match against its two-element tuple.
 */
module Records {
  import opened Optional
  import opened Text

  /** `CoopController.OPEN` / `CoopController.CLOSED` */
  datatype DoorState = Open | Closed

  /** `CoopController.AUTO` / `CoopController.MANUAL` */
  datatype DoorMode = Auto | Manual

  function StateName(s: DoorState): string {
    match s
    case Open => "open"
    case Closed => "closed"
  }

  function ModeName(m: DoorMode): string {
    match m
    case Auto => "auto"
    case Manual => "manual"
  }

  /** `tok in self.door_states`: recognises exactly the two state tokens. */
  function ParseState(tok: string): (r: Option<DoorState>)
    ensures r.Some? ==> StateName(r.value) == tok
    ensures forall s :: StateName(s) == tok ==> r == Some(s)
  {
    if tok == "open" then Some(Open)
    else if tok == "closed" then Some(Closed)
    else None
  }

  /** `tok in self.door_modes`: recognises exactly the two mode tokens. */
  function ParseMode(tok: string): (r: Option<DoorMode>)
    ensures r.Some? ==> ModeName(r.value) == tok
    ensures forall m :: ModeName(m) == tok ==> r == Some(m)
  {
    if tok == "auto" then Some(Auto)
    else if tok == "manual" then Some(Manual)
    else None
  }

  /** What the setters write: the token and a newline. */
  function Written(tok: string): (r: string)
    ensures |r| == |tok| + 1 && r[..|tok|] == tok && r[|tok|] == '\n'
  {
    tok + "\n"
  }

  /** `f.readline().strip()` on a record's contents. */
  function ReadToken(contents: string): (r: string)
    // the first line with only its surrounding whitespace removed
    ensures exists i :: StrippedAt(FirstLine(contents), r, i)
    // a single line, with no whitespace at either end
    ensures '\n' !in r
    ensures |r| > 0 ==> !IsSpace(r[0]) && !IsSpace(r[|r| - 1])
    // a record that is already a bare token on one line reads as itself
    ensures '\n' !in contents && (|contents| == 0 || (!IsSpace(contents[0]) && !IsSpace(contents[|contents| - 1])))
      ==> r == contents
  {
    var line := FirstLine(contents);
    LineStripped(line);
    Strip(line)
  }

  /** Stripping a line removes its trailing '\n', leaving no newline at all. */
  lemma LineStripped(line: string)
    requires forall i :: 0 <= i < |line| - 1 ==> line[i] != '\n'
    ensures '\n' !in Strip(line)
  {
    var r := Strip(line);
    var i :| StrippedAt(line, r, i);
    assert IsSpace('\n');
    forall k | 0 <= k < |r|
      ensures r[k] != '\n'
    {
      if k < |r| - 1 {
        assert r[k] == line[i + k] && i + k < |line| - 1;
      } else {
        assert !IsSpace(r[k]);
      }
    }
  }

  /** A token without whitespace reads back as itself from what a setter writes. */
  lemma ReadWritten(tok: string)
    requires NoSpace(tok)
    ensures ReadToken(Written(tok)) == tok
  {
    assert IsSpace('\n');
    assert '\n' !in tok;
    FirstLineOfLine(tok, "");
    assert tok + "\n" + "" == Written(tok);
    var s := Written(tok);
    if |tok| == 0 {
      assert s == "\n" && TrimStart(s) == TrimStart(s[1..]);
    } else {
      assert TrimStart(s) == s by { assert !IsSpace(s[0]); }
      assert s[..|s| - 1] == tok;
      assert TrimEnd(s) == TrimEnd(tok);
      assert !IsSpace(tok[|tok| - 1]);
    }
  }

  /** Writing a state and reading the record back yields that state. */
  lemma StateRoundTrip(s: DoorState)
    ensures ParseState(ReadToken(Written(StateName(s)))) == Some(s)
  {
    var tok := StateName(s);
    assert NoSpace(tok) by {
      forall i | 0 <= i < |tok| ensures !IsSpace(tok[i]) {
        assert 'a' <= tok[i] <= 'z';
      }
    }
    ReadWritten(tok);
  }

  /** Writing a mode and reading the record back yields that mode. */
  lemma ModeRoundTrip(m: DoorMode)
    ensures ParseMode(ReadToken(Written(ModeName(m)))) == Some(m)
  {
    var tok := ModeName(m);
    assert NoSpace(tok) by {
      forall i | 0 <= i < |tok| ensures !IsSpace(tok[i]) {
        assert 'a' <= tok[i] <= 'z';
      }
    }
    ReadWritten(tok);
  }
}
