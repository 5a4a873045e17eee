/** components/StatusBadge.tsx: the classes and the icon of an appointment's
    status badge. */
module StatusBadge {
  import opened Wrappers
  import opened Constants

  /** The keys of `entries` whose condition holds, in order. */
  function Kept(entries: seq<(string, bool)>): (r: seq<string>)
    ensures |r| <= |entries|
    ensures forall c :: c in r <==> (c, true) in entries
  {
    if entries == [] then []
    else
      assert forall e :: e in entries <==> e == entries[0] || e in entries[1..];
      (if entries[0].1 then [entries[0].0] else []) + Kept(entries[1..])
  }

  /** `clsx(base, {k1: c1, k2: c2, ...})`: the base class, then every key
      whose condition holds, in the order written. */
  function Clsx(base: string, entries: seq<(string, bool)>): seq<string> {
    [base] + Kept(entries)
  }

  lemma KeptThree(a: (string, bool), b: (string, bool), c: (string, bool))
    ensures Kept([a, b, c]) == (if a.1 then [a.0] else []) + (if b.1 then [b.0] else []) + (if c.1 then [c.0] else [])
  {
    assert [a, b, c][1..] == [b, c];
    assert [b, c][1..] == [c];
    assert [c][1..] == [];
    assert Kept([c]) == (if c.1 then [c.0] else []) + Kept([]);
    assert Kept([b, c]) == (if b.1 then [b.0] else []) + Kept([c]);
    assert Kept([a, b, c]) == (if a.1 then [a.0] else []) + Kept([b, c]);
  }

  /** The classes of the badge's `div`. */
  function BadgeClasses(status: string): seq<string> {
    Clsx("status-badge", [
      ("bg-green-600", status == Validated),
      ("bg-blue-600", status == Pending),
      ("bg-red-600", status == Cancelled)])
  }

  /** The classes of the badge's text. */
  function TextClasses(status: string): seq<string> {
    Clsx("text-12-semibold capitalize", [
      ("text-green-500", status == Validated),
      ("text-blue-500", status == Pending),
      ("text-red-500", status == Cancelled)])
  }

  /** `StatusIcon[status]`; `undefined` for a string that is not a status. */
  function IconSource(status: string): (r: Option<string>)
    ensures r.Some? <==> status in KnownStatuses
    ensures r.Some? ==> r.value == StatusIcon[status]
  {
    if status in StatusIcon then Some(StatusIcon[status]) else None
  }

  /** The colours of each status, as a table. */
  const StatusColours: map<string, (string, string)> := map[
    Validated := ("bg-green-600", "text-green-500"),
    Pending := ("bg-blue-600", "text-blue-500"),
    Cancelled := ("bg-red-600", "text-red-500")
  ]

  /** The badge of a status carries exactly its colour from the table after
      the base class, and a string that is no status gets the base class
      alone. */
  lemma {:induction false} BadgeFollowsColourTable(status: string)
    ensures BadgeClasses(status) ==
            ["status-badge"] + (if status in StatusColours then [StatusColours[status].0] else [])
    ensures TextClasses(status) ==
            ["text-12-semibold capitalize"] + (if status in StatusColours then [StatusColours[status].1] else [])
  {
    KeptThree(("bg-green-600", status == Validated), ("bg-blue-600", status == Pending), ("bg-red-600", status == Cancelled));
    KeptThree(("text-green-500", status == Validated), ("text-blue-500", status == Pending), ("text-red-500", status == Cancelled));
  }

  predicate IsBackgroundClass(c: string) {
    c in {"bg-green-600", "bg-blue-600", "bg-red-600"}
  }

  predicate IsTextColourClass(c: string) {
    c in {"text-green-500", "text-blue-500", "text-red-500"}
  }

  function CountWhere(cs: seq<string>, p: string -> bool): nat {
    if cs == [] then 0 else (if p(cs[0]) then 1 else 0) + CountWhere(cs[1..], p)
  }

  /** Each of the three statuses gets exactly one background and one text
      colour; any other string gets none. */
  lemma OneColourPerStatus(status: string)
    ensures CountWhere(BadgeClasses(status), IsBackgroundClass) == (if status in KnownStatuses then 1 else 0)
    ensures CountWhere(TextClasses(status), IsTextColourClass) == (if status in KnownStatuses then 1 else 0)
  {
    BadgeFollowsColourTable(status);
    var b, t := BadgeClasses(status), TextClasses(status);
    if status in KnownStatuses {
      assert b[1..][1..] == [] && t[1..][1..] == [];
      assert IsBackgroundClass(b[1]) && IsTextColourClass(t[1]);
      assert !IsBackgroundClass(b[0]) && !IsTextColourClass(t[0]);
      assert CountWhere(b[1..][1..], IsBackgroundClass) == 0 && CountWhere(t[1..][1..], IsTextColourClass) == 0;
      assert CountWhere(b[1..], IsBackgroundClass) == 1 && CountWhere(t[1..], IsTextColourClass) == 1;
    } else {
      assert b == ["status-badge"] && t == ["text-12-semibold capitalize"];
    }
  }
}
