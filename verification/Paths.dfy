/** Slash-separated names and how joining one to a directory cleans it. */
module Paths {
  import opened Text

  /** The pieces between slashes. */
  function Segments(s: string): (r: seq<string>)
    ensures r != []
  {
    if s == "" then [""]
    else if s[0] == '/' then [""] + Segments(s[1..])
    else
      var rest := Segments(s[1..]);
      [[s[0]] + rest[0]] + rest[1..]
  }

  function Joined(names: seq<string>): string {
    if names == [] then ""
    else if |names| == 1 then names[0]
    else names[0] + "/" + Joined(names[1..])
  }

  /** A file name. */
  predicate Proper(name: string) { name != "" && name != "." && name != ".." && '/' !in name }

  predicate AllProper(names: seq<string>) { forall name | name in names :: Proper(name) }

  predicate Unslashed(names: seq<string>) { forall name | name in names :: '/' !in name }

  /** Where the segments lead, from the directory they are joined to: empty ones and
      "." stay, ".." goes up. None when they leave that directory. */
  function Walk(segments: seq<string>): Option<seq<string>> {
    if segments == [] then Some([])
    else
      var names, last := Walk(segments[..|segments| - 1]), segments[|segments| - 1];
      if names.None? then None else WalkOn(names.value, last)
  }

  function WalkOn(names: seq<string>, last: string): Option<seq<string>> {
    if last == "" || last == "." then Some(names)
    else if last != ".." then Some(names + [last])
    else if names == [] then None
    else Some(names[..|names| - 1])
  }

  /** What follows a stretch that leads to the same place leads on to the same place. */
  lemma {:induction false} SamePlace(a: seq<string>, b: seq<string>, rest: seq<string>)
    requires Walk(a) == Walk(b)
    ensures Walk(a + rest) == Walk(b + rest)
  {
    if rest == [] {
      assert a + rest == a && b + rest == b;
    } else {
      var n := |rest| - 1;
      SamePlace(a, b, rest[..n]);
      assert (a + rest)[..|a| + n] == a + rest[..n] && (b + rest)[..|b| + n] == b + rest[..n];
    }
  }

  lemma OneOn(before: seq<string>, last: string)
    ensures Walk(before + [last]) == if Walk(before).None? then None else WalkOn(Walk(before).value, last)
  {
    assert (before + [last])[..|before|] == before;
  }

  /** Wherever it stands, a name followed by ".." leads nowhere, and so do an empty segment
      and "."; going up from the directory itself leaves it for good. */
  lemma WalkCancels(before: seq<string>, name: string, rest: seq<string>)
    requires Proper(name)
    ensures Walk(before + [name] + [".."] + rest) == Walk(before + rest)
    ensures Walk(before + ["."] + rest) == Walk(before + rest) == Walk(before + [""] + rest)
    ensures Walk(before) == Some([]) ==> Walk(before + [".."] + rest).None?
  {
    OneOn(before, name);
    OneOn(before + [name], "..");
    OneOn(before, ".");
    OneOn(before, "");
    OneOn(before, "..");
    if Walk(before).Some? {
      assert (Walk(before).value + [name])[..|Walk(before).value|] == Walk(before).value;
    }
    SamePlace(before + [name] + [".."], before, rest);
    SamePlace(before + ["."], before, rest);
    SamePlace(before + [""], before, rest);
    if Walk(before) == Some([]) {
      LeftForGood(before + [".."], rest);
    }
  }

  lemma {:induction false} LeftForGood(before: seq<string>, rest: seq<string>)
    requires Walk(before).None?
    ensures Walk(before + rest).None?
  {
    if rest == [] {
      assert before + rest == before;
    } else {
      var n := |rest| - 1;
      LeftForGood(before, rest[..n]);
      assert (before + rest)[..|before| + n] == before + rest[..n];
    }
  }

  lemma {:induction false} SegmentsUnslashed(s: string)
    ensures Unslashed(Segments(s))
  {
    if s != "" {
      SegmentsUnslashed(s[1..]);
      var rest := Segments(s[1..]);
      assert rest[0] in rest;
      forall name | name in Segments(s) ensures '/' !in name {
        assert name in rest || name == "" || name == [s[0]] + rest[0];
      }
    }
  }

  lemma {:induction false} JoinedSegments(s: string)
    ensures Joined(Segments(s)) == s
  {
    if s != "" {
      JoinedSegments(s[1..]);
      var rest := Segments(s[1..]);
      if s[0] == '/' {
        assert ([""] + rest)[1..] == rest;
        assert s == "" + "/" + s[1..];
      } else {
        var all := [[s[0]] + rest[0]] + rest[1..];
        assert all[1..] == rest[1..];
        if |rest| > 1 {
          assert [s[0]] + rest[0] + "/" + Joined(rest[1..]) == [s[0]] + (rest[0] + "/" + Joined(rest[1..]));
        }
        assert s == [s[0]] + s[1..];
      }
    }
  }

  lemma {:induction false} OneSegment(name: string, rest: string)
    requires '/' !in name
    ensures Segments(name) == [name] && Segments(name + "/" + rest) == [name] + Segments(rest)
  {
    if name == "" {
      assert ("" + "/" + rest)[1..] == rest;
    } else {
      OneSegment(name[1..], rest);
      var all := name + "/" + rest;
      assert all[1..] == name[1..] + "/" + rest;
      assert name == [name[0]] + name[1..];
    }
  }

  lemma {:induction false} SegmentsJoined(names: seq<string>)
    requires names != [] && Unslashed(names)
    ensures Segments(Joined(names)) == names
  {
    if |names| == 1 {
      OneSegment(names[0], "");
    } else {
      SegmentsJoined(names[1..]);
      OneSegment(names[0], Joined(names[1..]));
      assert names == [names[0]] + names[1..];
    }
  }

  lemma {:induction false} WalkProper(segments: seq<string>)
    requires Unslashed(segments) && Walk(segments).Some?
    ensures AllProper(Walk(segments).value) && |Walk(segments).value| <= |segments|
    ensures Walk(segments).value == segments <==> AllProper(segments)
  {
    if segments != [] {
      var init, last := segments[..|segments| - 1], segments[|segments| - 1];
      assert segments == init + [last];
      WalkProper(init);
      var names := Walk(init).value;
      assert last in segments;
      if names == init && Proper(last) {
        assert AllProper(segments);
      } else if AllProper(segments) {
        assert AllProper(init);
      } else {
        assert names != init || !Proper(last);
      }
    }
  }

  lemma {:induction false} WalkStays(names: seq<string>)
    requires AllProper(names)
    ensures Walk(names) == Some(names)
  {
    if names != [] {
      assert names[|names| - 1] in names;
      WalkStays(names[..|names| - 1]);
      assert names == names[..|names| - 1] + [names[|names| - 1]];
    }
  }

  /** The name of a file below the directory. */
  predicate CleanName(f: string) { AllProper(Segments(f)) }

  /** What is walked to is a clean name, or the directory itself. */
  lemma WalkedClean(s: string)
    requires Walk(Segments(s)).Some?
    ensures
      var names := Walk(Segments(s)).value;
      && (names != [] ==> CleanName(Joined(names)))
      && (names != [] && Joined(names) == s <==> CleanName(s))
  {
    var names := Walk(Segments(s)).value;
    SegmentsUnslashed(s);
    JoinedSegments(s);
    WalkProper(Segments(s));
    if names != [] {
      SegmentsJoined(names);
    }
  }

  lemma CleanStays(f: string)
    requires CleanName(f)
    ensures f != "" && Walk(Segments(f)) == Some(Segments(f)) && Joined(Segments(f)) == f
  {
    assert Segments(f)[0] in Segments(f);
    WalkStays(Segments(f));
    JoinedSegments(f);
  }

  lemma WalkDropped(segment: string, name: string)
    requires (segment == "" || segment == ".") && Proper(name)
    ensures Walk([segment, name]) == Some([name])
  {
    assert [segment, name][..1] == [segment] && [segment][..0] == [];
    assert Walk([segment]) == Some([]);
    assert [] + [name] == [name];
  }

  /** A first segment that goes nowhere. */
  lemma DroppedSegments(segment: string, name: string)
    requires (segment == "" || segment == ".") && Proper(name)
    ensures
      var segments := Segments(segment + "/" + name);
      segments == [segment, name] && Walk(segments) == Some([name]) && Joined([name]) == name
  {
    OneSegment(segment, name);
    OneSegment(name, "");
    WalkDropped(segment, name);
    assert [segment] + [name] == [segment, name];
  }
}
