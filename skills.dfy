/** Skills are edited as one comma-separated line and stored as a list:
    `input.split(",").map(s => s.trim()).filter(Boolean)` reads the line,
    `skills.join(", ")` writes it. Both job-description screens use them. */
module Skills {
  import opened Text
  import opened ListView

  /** The parts of the line, each trimmed. */
  function TrimmedParts(input: string): (parts: seq<string>)
    ensures forall k :: 0 <= k < |parts| ==> IsTrimmed(parts[k]) && ',' !in parts[k]
  {
    var pieces := Split(input, ',');
    var parts := seq(|pieces|, i requires 0 <= i < |pieces| => Trim(pieces[i]));
    assert forall k :: 0 <= k < |parts| ==> ',' !in parts[k] by {
      forall k | 0 <= k < |parts| ensures ',' !in parts[k] {
        TrimKeepsOut(pieces[k], ',');
      }
    }
    parts
  }

  /** The skills in a line: non-empty, without white space at either end,
      and without a comma. */
  function ParseSkills(input: string): (skills: seq<string>)
    ensures forall x :: x in skills ==> x != "" && IsTrimmed(x) && ',' !in x
  {
    Filter(TrimmedParts(input), (s: string) => s != "")
  }

  /** `skills.join(", ")`. */
  function JoinSkills(skills: seq<string>): string
  {
    Join(skills, ", ")
  }

  /** An empty line holds no skills, so the screens' extra test for an
      empty input changes nothing. */
  lemma ParseEmpty()
    ensures ParseSkills("") == []
  {
    assert Split("", ',') == [""];
    assert TrimmedParts("") == [""];
  }

  /** Each part after the first starts with the space of the separator. */
  function Spaced(skills: seq<string>): (r: seq<string>)
    ensures |r| == |skills|
    ensures forall i :: 0 <= i < |skills| ==> r[i] == " " + skills[i]
  {
    seq(|skills|, i requires 0 <= i < |skills| => " " + skills[i])
  }

  lemma JoinPrefixFirst(p: string, b: string, rest: seq<string>, sep: string)
    ensures Join([p + b] + rest, sep) == p + Join([b] + rest, sep)
  {
    if rest != [] {
      assert ([p + b] + rest)[1..] == rest;
      assert ([b] + rest)[1..] == rest;
    }
  }

  /** Joining with ", " is joining with "," once every later part carries
      its leading space. */
  lemma {:induction false} JoinCommaSpace(a: string, rest: seq<string>)
    ensures Join([a] + rest, ", ") == Join([a] + Spaced(rest), [','])
    decreases |rest|
  {
    if rest == [] {
      assert [a] + rest == [a];
      assert [a] + Spaced(rest) == [a];
    } else {
      var tail := Spaced(rest[1..]);
      JoinCommaSpace(rest[0], rest[1..]);
      assert [rest[0]] + rest[1..] == rest;
      var joined := Join(rest, ", ");
      assert joined == Join([rest[0]] + tail, [',']);
      assert Spaced(rest) == [" " + rest[0]] + tail;
      JoinPrefixFirst(" ", rest[0], tail, [',']);
      assert Join(Spaced(rest), [',']) == " " + joined;
      assert ([a] + rest)[1..] == rest;
      assert Join([a] + rest, ", ") == a + ", " + joined;
      assert ([a] + Spaced(rest))[1..] == Spaced(rest);
      assert Join([a] + Spaced(rest), [',']) == a + [','] + (" " + joined);
      assert a + ", " + joined == a + [','] + (" " + joined);
    }
  }

  /** The line written for non-empty skills splits at its commas into the
      first skill and each later one after its space. */
  lemma SplitJoined(skills: seq<string>)
    requires skills != [] && forall x :: x in skills ==> ',' !in x
    ensures Split(JoinSkills(skills), ',') == [skills[0]] + Spaced(skills[1..])
  {
    var parts := [skills[0]] + Spaced(skills[1..]);
    assert [skills[0]] + skills[1..] == skills;
    JoinCommaSpace(skills[0], skills[1..]);
    forall k | 0 <= k < |parts| ensures ',' !in parts[k] {
      assert skills[k] in skills;
      if k > 0 {
        assert parts[k] == " " + skills[k];
      }
    }
    SplitJoin(parts, ',');
  }

  /** Trimming the parts of a written line takes the spaces off again. */
  lemma TrimJoined(skills: seq<string>)
    requires skills != [] && forall x :: x in skills ==> IsTrimmed(x) && ',' !in x
    ensures TrimmedParts(JoinSkills(skills)) == skills
  {
    SplitJoined(skills);
    var pieces := [skills[0]] + Spaced(skills[1..]);
    var trimmed := TrimmedParts(JoinSkills(skills));
    forall k | 0 <= k < |skills| ensures trimmed[k] == skills[k] {
      assert skills[k] in skills;
      if k == 0 {
        TrimTrimmed(skills[0]);
      } else {
        assert pieces[k] == " " + skills[k] + "";
        TrimAround(" ", skills[k], "");
      }
    }
  }

  /** Reading back a written list gives the list, for skills that are
      non-empty, trimmed and free of commas. */
  lemma ParseJoin(skills: seq<string>)
    requires forall x :: x in skills ==> x != "" && IsTrimmed(x) && ',' !in x
    ensures ParseSkills(JoinSkills(skills)) == skills
  {
    if skills == [] {
      ParseEmpty();
    } else {
      TrimJoined(skills);
      FilterAll(skills, (s: string) => s != "");
    }
  }
}
