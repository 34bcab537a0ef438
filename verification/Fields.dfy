/** Text in fields between delimiters. */
module Fields {
  function Joined(fields: seq<string>, delim: char): string {
    if fields == [] then []
    else if |fields| == 1 then fields[0]
    else Joined(fields[..|fields| - 1], delim) + [delim] + fields[|fields| - 1]
  }

  ghost predicate Without(fields: seq<string>, delim: char) {
    forall k | 0 <= k < |fields| :: delim !in fields[k]
  }

  /** The fields of a text: the only ones without the delimiter that make it up. */
  function Split(s: string, delim: char): (fields: seq<string>)
    ensures |fields| > 0 && Without(fields, delim) && Joined(fields, delim) == s
  {
    if s == [] then [[]]
    else
      var n := |s| - 1;
      var head := Split(s[..n], delim);
      if s[n] == delim then
        JoinedMore(head, [], delim);
        head + [[]]
      else
        JoinedLonger(head, s[n], delim);
        head[..|head| - 1] + [head[|head| - 1] + [s[n]]]
  }

  lemma JoinedMore(fields: seq<string>, field: string, delim: char)
    requires fields != []
    ensures Joined(fields + [field], delim) == Joined(fields, delim) + [delim] + field
  {
    assert (fields + [field])[..|fields|] == fields;
  }

  lemma JoinedLonger(fields: seq<string>, c: char, delim: char)
    requires fields != []
    ensures Joined(fields[..|fields| - 1] + [fields[|fields| - 1] + [c]], delim) == Joined(fields, delim) + [c]
  {
    var m := |fields| - 1;
    var longer := fields[..m] + [fields[m] + [c]];
    assert longer[..m] == fields[..m];
  }

  /** The last field is what follows the last delimiter. */
  lemma {:induction false} SplitLast(s: string, field: string, delim: char)
    requires delim !in field
    ensures Split(s + [delim] + field, delim) == Split(s, delim) + [field]
  {
    hide Joined, Without;
    var text := s + [delim] + field;
    var n := |text| - 1;
    if field == [] {
      assert text[..n] == s;
    } else {
      var m := |field| - 1;
      SplitLast(s, field[..m], delim);
      assert text[..n] == s + [delim] + field[..m];
      assert field == field[..m] + [field[m]];
    }
  }

  lemma {:induction false} SplitOne(field: string, delim: char)
    requires delim !in field
    ensures Split(field, delim) == [field]
  {
    hide Joined, Without;
    if field != [] {
      var n := |field| - 1;
      SplitOne(field[..n], delim);
      assert field == field[..n] + [field[n]];
    }
  }

  /** Fields without the delimiter are found again. */
  lemma {:induction false} SplitJoined(fields: seq<string>, delim: char)
    requires fields != [] && Without(fields, delim)
    ensures Split(Joined(fields, delim), delim) == fields
  {
    var n := |fields| - 1;
    if n == 0 {
      SplitOne(fields[0], delim);
      assert fields == [fields[0]];
    } else {
      SplitJoined(fields[..n], delim);
      SplitLast(Joined(fields[..n], delim), fields[n], delim);
      assert fields == fields[..n] + [fields[n]];
    }
  }

  lemma {:induction false} JoinedFront(field: string, fields: seq<string>, delim: char)
    requires fields != []
    ensures Joined([field] + fields, delim) == field + [delim] + Joined(fields, delim)
  {
    var all := [field] + fields;
    var n := |fields| - 1;
    assert all[..|all| - 1] == [field] + fields[..n];
    if n == 0 {
      assert fields == [fields[0]];
    } else {
      JoinedFront(field, fields[..n], delim);
    }
  }

  /** The first field is what comes before the first delimiter. */
  lemma SplitFirst(field: string, s: string, delim: char)
    requires delim !in field
    ensures Split(field + [delim] + s, delim) == [field] + Split(s, delim)
  {
    var fields := Split(s, delim);
    JoinedFront(field, fields, delim);
    SplitJoined([field] + fields, delim);
  }
}
