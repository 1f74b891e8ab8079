/** Filter values, and the comma decoding that `register` applies to a value
    read back from a URL query parameter. */
module Values {

  datatype Option<T> = None | Some(value: T)

  /** A filter value as the provider handles it: a scalar string, a list of
      strings, or null. */
  datatype Value = Str(s: string) | List(items: seq<string>) | Nil

  /** The number of commas in s. */
  function Commas(s: string): (n: nat)
    ensures n == 0 <==> ',' !in s
  {
    if s == [] then 0 else (if s[0] == ',' then 1 else 0) + Commas(s[1..])
  }

  /** JavaScript's `s.split(",")`: the pieces of s between its commas, empty
      pieces included, so there is always one more piece than there are commas. */
  function Split(s: string): (parts: seq<string>)
    ensures |parts| == Commas(s) + 1
    ensures forall i :: 0 <= i < |parts| ==> ',' !in parts[i]
  {
    if s == [] then [""]
    else
      var rest := Split(s[1..]);
      if s[0] == ',' then [""] + rest
      else [[s[0]] + rest[0]] + rest[1..]
  }

  /** JavaScript's `parts.join(",")`. */
  function Join(parts: seq<string>): (s: string)
  {
    if parts == [] then ""
    else if |parts| == 1 then parts[0]
    else parts[0] + "," + Join(parts[1..])
  }

  /** Putting a string in front of the first part puts it in front of the
      joined string. */
  lemma JoinPrepend(x: string, parts: seq<string>)
    requires |parts| >= 1
    ensures Join([x + parts[0]] + parts[1..]) == x + Join(parts)
  {
  }

  /** Joining the pieces of a split gives back the string. */
  lemma {:induction false} JoinSplit(s: string)
    ensures Join(Split(s)) == s
  {
    if s != [] {
      var rest := Split(s[1..]);
      JoinSplit(s[1..]);
      if s[0] == ',' {
        var parts := [""] + rest;
        assert parts[1..] == rest;
        assert Join(parts) == "" + "," + Join(rest);
        assert s == [','] + s[1..];
      } else {
        JoinPrepend([s[0]], rest);
        assert s == [s[0]] + s[1..];
      }
    }
  }

  /** Splitting a comma-free prefix x followed by t glues x onto the first
      piece of t. */
  lemma {:induction false} SplitCommaFreePrefix(x: string, t: string)
    requires ',' !in x
    ensures Split(x + t) == [x + Split(t)[0]] + Split(t)[1..]
  {
    if x == [] {
      assert x + t == t && x + Split(t)[0] == Split(t)[0];
      assert Split(t) == [Split(t)[0]] + Split(t)[1..];
    } else {
      var u := x + t;
      assert u[0] == x[0] && u[1..] == x[1..] + t;
      SplitCommaFreePrefix(x[1..], t);
      var r := Split(u[1..]);
      assert r == [x[1..] + Split(t)[0]] + Split(t)[1..];
      assert r[0] == x[1..] + Split(t)[0] && r[1..] == Split(t)[1..];
      assert Split(u) == [[x[0]] + r[0]] + r[1..];
      assert [x[0]] + (x[1..] + Split(t)[0]) == x + Split(t)[0];
    }
  }

  /** Splitting a join of comma-free parts gives back the parts. */
  lemma {:induction false} SplitJoin(parts: seq<string>)
    requires |parts| >= 1
    requires forall i :: 0 <= i < |parts| ==> ',' !in parts[i]
    ensures Split(Join(parts)) == parts
  {
    if |parts| == 1 {
      SplitCommaFreePrefix(parts[0], "");
      assert parts[0] + "" == parts[0];
    } else {
      var rest := parts[1..];
      SplitJoin(rest);
      var tail := "," + Join(rest);
      SplitCommaFreePrefix(parts[0], tail);
      assert tail[1..] == Join(rest);
      assert Split(tail) == [""] + rest;
      assert parts[0] + "," + Join(rest) == parts[0] + tail;
      assert parts[0] + "" == parts[0];
      assert parts == [parts[0]] + rest;
    }
  }

  /** The value `register` makes of a URL parameter v: the list of its
      comma-separated pieces when v holds a comma, v itself otherwise. */
  function Decode(v: string): (r: Value)
    ensures ',' !in v ==> r == Str(v)
    ensures ',' in v ==> r.List? && |r.items| >= 2 && Join(r.items) == v
    ensures ',' in v ==> forall i :: 0 <= i < |r.items| ==> ',' !in r.items[i]
  {
    if ',' in v then JoinSplit(v); List(Split(v)) else Str(v)
  }

  /** Decoding a comma-join of comma-free parts gives the list back when there
      are at least two parts, but a lone part comes back as a scalar string:
      the comma heuristic cannot tell a one-element list from a string. */
  lemma DecodeJoin(parts: seq<string>)
    requires |parts| >= 1
    requires forall i :: 0 <= i < |parts| ==> ',' !in parts[i]
    ensures |parts| == 1 ==> Decode(Join(parts)) == Str(parts[0])
    ensures |parts| >= 2 ==> Decode(Join(parts)) == List(parts)
  {
    if |parts| >= 2 {
      var j := Join(parts);
      assert j[|parts[0]|] == ',';
      SplitJoin(parts);
    }
  }
}
