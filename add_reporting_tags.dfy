/** The reporting-tag policy: from the rows of a subfolder query, pick the names not yet
    marked with the `Reporting:` tag, keep those the inclusion rule selects, and attach
    `Reporting:<name>` to each through the client's bulk tag endpoint. */
module AddReportingTags {
  import opened Wrappers
  import opened StarfishApiClient
  import Seqs

  /** One result row: its attributes (`fn`, `full_path`, ...) and, when present,
      its `tags_explicit` list. */
  datatype Row = Row(fields: map<string, string>, tagsExplicit: Option<seq<string>>)

  /** `'Reporting:' not in r['tags_explicit']`: list membership of the bare string,
      so a row carrying `Reporting:b` still counts as untagged. */
  predicate Untagged(row: Row)
  {
    row.tagsExplicit.Some? && "Reporting:" !in row.tagsExplicit.value
  }

  /** A row the comprehension can pass without a `KeyError`. */
  predicate RowOk(row: Row, attribute: string)
  {
    row.tagsExplicit.Some? && (Untagged(row) ==> attribute in row.fields)
  }

  /** Every row passes the comprehension without a `KeyError`. */
  predicate RowsOk(rows: seq<Row>, attribute: string)
  {
    forall i :: 0 <= i < |rows| ==> RowOk(rows[i], attribute)
  }

  /** The first row the comprehension stops at. */
  function FirstBadRow(rows: seq<Row>, attribute: string): (i: nat)
    requires !RowsOk(rows, attribute)
    ensures i < |rows| && !RowOk(rows[i], attribute)
    ensures forall j :: 0 <= j < i ==> RowOk(rows[j], attribute)
  {
    if !RowOk(rows[0], attribute) then 0
    else
      assert !RowsOk(rows[1..], attribute) by {
        var k :| 0 <= k < |rows| && !RowOk(rows[k], attribute);
        assert rows[1..][k - 1] == rows[k];
      }
      var k := FirstBadRow(rows[1..], attribute);
      assert forall j :: 1 <= j <= k ==> rows[j] == rows[1..][j - 1];
      k + 1
  }

  /** The key whose lookup fails on a bad row: `tags_explicit` first, then the attribute. */
  function MissingKey(row: Row, attribute: string): string
  {
    if row.tagsExplicit.None? then "tags_explicit" else attribute
  }

  /** `get_untagged_filenames`: `[r[attribute] for r in results if 'Reporting:' not in
      r['tags_explicit']]`; a missing key fails with that key's name, first row first. */
  function UntaggedFilenames(rows: seq<Row>, attribute: string): (r: Result<seq<string>, string>)
    ensures r.Success? <==> RowsOk(rows, attribute)
    ensures r.Failure? ==> r.error == MissingKey(rows[FirstBadRow(rows, attribute)], attribute)
  {
    if rows == [] then Success([])
    else
      var row := rows[0];
      var rest := UntaggedFilenames(rows[1..], attribute);
      assert RowsOk(rows, attribute) <==> RowOk(row, attribute) && RowsOk(rows[1..], attribute) by {
        assert forall i :: 1 <= i < |rows| ==> rows[i] == rows[1..][i - 1];
      }
      if row.tagsExplicit.None? then Failure("tags_explicit")
      else if !Untagged(row) then rest
      else if attribute !in row.fields then Failure(attribute)
      else if rest.Failure? then rest
      else Success([row.fields[attribute]] + rest.value)
  }

  /** The names returned are the `attribute` values of the untagged rows, in row order,
      one per untagged row. */
  lemma {:induction false} UntaggedFilenamesSelects(rows: seq<Row>, attribute: string)
    requires UntaggedFilenames(rows, attribute).Success?
    ensures var names := UntaggedFilenames(rows, attribute).value;
      var kept := Seqs.Filter(rows, Untagged);
      |names| == |kept| <= |rows| &&
      forall j :: 0 <= j < |kept| ==> attribute in kept[j].fields && names[j] == kept[j].fields[attribute]
  {
    if rows != [] {
      assert forall i :: 1 <= i < |rows| ==> rows[i] == rows[1..][i - 1];
      UntaggedFilenamesSelects(rows[1..], attribute);
      var names := UntaggedFilenames(rows, attribute).value;
      var kept := Seqs.Filter(rows, Untagged);
      if Untagged(rows[0]) {
        assert RowOk(rows[0], attribute);
        assert names == [rows[0].fields[attribute]] + UntaggedFilenames(rows[1..], attribute).value;
        assert kept == [rows[0]] + Seqs.Filter(rows[1..], Untagged);
      }
    }
  }

  /** The inclusion rule of `filter_filenames`: hidden names, `systemd*`, `mmfs`, or a
      name in the list passed as `blacklist`. Such names are kept, not dropped. */
  predicate Included(name: string, blacklist: seq<string>)
  {
    Seqs.StartsWith(name, ".") || Seqs.StartsWith(name, "systemd") || name == "mmfs" || name in blacklist
  }

  /** `filter_filenames`: the names the inclusion rule selects, in their original order. */
  function FilterFilenames(names: seq<string>, blacklist: seq<string>): (r: seq<string>)
    ensures forall f :: f in r <==> f in names && Included(f, blacklist)
    ensures Seqs.Subseq(r, names) && |r| <= |names|
    ensures forall f :: multiset(r)[f] == if Included(f, blacklist) then multiset(names)[f] else 0
  {
    Seqs.FilterCounts(names, f => Included(f, blacklist));
    Seqs.Filter(names, f => Included(f, blacklist))
  }

  /** Applying the inclusion rule to its own output changes nothing. */
  lemma FilterFilenamesIdempotent(names: seq<string>, blacklist: seq<string>)
    ensures FilterFilenames(FilterFilenames(names, blacklist), blacklist) == FilterFilenames(names, blacklist)
  {
    Seqs.FilterIdempotent(names, f => Included(f, blacklist));
  }

  /** The names `add_reporting_tags` tags, or the key whose absence stops it. */
  function Plan(results: seq<Row>, fnAttr: string, blacklist: seq<string>): (r: Result<seq<string>, string>)
    ensures r.Success? <==> UntaggedFilenames(results, fnAttr).Success?
    ensures r.Failure? ==> r.error == UntaggedFilenames(results, fnAttr).error
    ensures r.Success? ==> var names := UntaggedFilenames(results, fnAttr).value;
      (forall f :: f in r.value <==> f in names && Included(f, blacklist)) &&
      Seqs.Subseq(r.value, names) &&
      forall f :: multiset(r.value)[f] == if Included(f, blacklist) then multiset(names)[f] else 0
  {
    match UntaggedFilenames(results, fnAttr)
    case Failure(key) => Failure(key)
    case Success(names) => Success(FilterFilenames(names, blacklist))
  }

  /** The tagger: a client and the log of the tag requests it has sent through it. */
  class StarfishTagger {
    const sf: StarfishClient
    var calls: seq<Request>

    constructor (sf: StarfishClient)
      ensures this.sf == sf && calls == []
    {
      this.sf := sf;
      calls := [];
    }

    /** `self.sf.add_tag(f"{volume}:{f}", f"Reporting:{f}")` for each name, in order. */
    function TagRequests(volume: string, names: seq<string>): (reqs: seq<Request>)
      ensures |reqs| == |names|
    {
      seq(|names|, j requires 0 <= j < |names| =>
        sf.AddTag(Scalar(volume + ":" + names[j]), Scalar("Reporting:" + names[j])))
    }

    /** Each request tags exactly the path `<volume>:<name>` with `Reporting:<name>`
        through the bulk endpoint, without strict checking. */
    lemma TagRequestShape(volume: string, names: seq<string>, j: nat)
      requires j < |names|
      ensures var req := TagRequests(volume, names)[j];
        req.verb == Post && req.endpoint == "tag/bulk" &&
        req.body == TagPaths([volume + ":" + names[j]], ["Reporting:" + names[j]], Some(false))
    {
      var req := TagRequests(volume, names)[j];
      assert req == sf.AddTag(Scalar(volume + ":" + names[j]), Scalar("Reporting:" + names[j]));
    }

    /** The loop of `add_reporting_tags`: `self.sf.add_tag(...)` for each name, in order, each
        appended to the log. */
    method SendTags(volume: string, names: seq<string>)
      modifies this
      ensures calls == old(calls) + TagRequests(volume, names)
    {
      for i := 0 to |names|
        invariant calls == old(calls) + TagRequests(volume, names[..i])
      {
        var f := names[i];
        calls := calls + [sf.AddTag(Scalar(volume + ":" + f), Scalar("Reporting:" + f))];
        assert TagRequests(volume, names[..i + 1]) == TagRequests(volume, names[..i]) + [TagRequests(volume, names[..i + 1])[i]];
      }
      assert names[..|names|] == names;
    }

    /** `add_reporting_tags` on the rows its subfolder query returned: one bulk tag request
        per selected name, in order, appended to the log; a missing key sends nothing. */
    method AddReportingTags(volume: string, fnAttr: string, blacklist: seq<string>, results: seq<Row>)
      returns (outcome: Result<(), string>)
      modifies this
      ensures outcome.Success? <==> Plan(results, fnAttr, blacklist).Success?
      ensures outcome.Failure? ==> calls == old(calls) && outcome.error == Plan(results, fnAttr, blacklist).error
      ensures outcome.Success? ==> calls == old(calls) + TagRequests(volume, Plan(results, fnAttr, blacklist).value)
    {
      var untagged := UntaggedFilenames(results, fnAttr);
      ghost var plan := Plan(results, fnAttr, blacklist);
      if untagged.Failure? {
        assert plan == Failure(untagged.error);
        return Failure(untagged.error);
      }
      var filenames := FilterFilenames(untagged.value, blacklist);
      assert plan == Success(filenames);
      SendTags(volume, filenames);
      return Success(());
    }

    /** A name already tagged and a name outside the rule: nothing is sent, although the
        row tagged `Reporting:b` is still counted as untagged. */
    lemma NoCallsExample()
      ensures var rows := [Row(map["fn" := "a"], Some([])), Row(map["fn" := "b"], Some(["Reporting:b"]))];
        UntaggedFilenames(rows, "fn") == Success(["a", "b"]) && Plan(rows, "fn", []) == Success([])
    {
      var rows := [Row(map["fn" := "a"], Some([])), Row(map["fn" := "b"], Some(["Reporting:b"]))];
      var tail := rows[1..];
      assert tail == [rows[1]] && tail[1..] == [];
      assert Untagged(rows[0]);
      assert Untagged(rows[1]) by { assert "Reporting:b" != "Reporting:"; assert ["Reporting:b"][0] != "Reporting:"; }
      assert UntaggedFilenames(tail, "fn") == Success(["b"]) by {
        assert UntaggedFilenames(tail[1..], "fn") == Success([]);
        assert tail[0].tagsExplicit.Some?;
        assert Untagged(tail[0]);
        assert "fn" in tail[0].fields;
        assert tail[0].fields["fn"] == "b";
        assert [tail[0].fields["fn"]] + [] == ["b"];
      }
      assert rows[0].fields["fn"] == "a";
      assert UntaggedFilenames(rows, "fn") == Success(["a", "b"]) by {
        assert "fn" in rows[0].fields;
        assert [rows[0].fields["fn"]] + ["b"] == ["a", "b"];
      }
      assert !Included("a", []) by { assert "a"[..1][0] == 'a'; }
      assert !Included("b", []) by { assert "b"[..1][0] == 'b'; }
      var keep := f => Included(f, []);
      assert Seqs.Filter(["b"], keep) == [];
      assert Seqs.Filter(["a", "b"], keep) == Seqs.Filter(["b"], keep) by { assert ["a", "b"][1..] == ["b"]; }
    }

    /** A hidden name is tagged once, as `vol:.hidden` with `Reporting:.hidden`. */
    lemma HiddenNameExample()
      ensures var rows := [Row(map["fn" := ".hidden"], Some([]))];
        Plan(rows, "fn", []) == Success([".hidden"]) &&
        |TagRequests("vol", [".hidden"])| == 1 &&
        TagRequests("vol", [".hidden"])[0].body == TagPaths(["vol:.hidden"], ["Reporting:.hidden"], Some(false))
    {
      var rows := [Row(map["fn" := ".hidden"], Some([]))];
      assert rows[1..] == [];
      assert Untagged(rows[0]);
      assert rows[0].fields["fn"] == ".hidden";
      assert Included(".hidden", []) by { assert ".hidden"[..1] == "."; }
      assert Seqs.Filter([".hidden"], f => Included(f, [])) == [".hidden"];
      TagRequestShape("vol", [".hidden"], 0);
      assert "vol" + ":" + ".hidden" == "vol:.hidden";
      assert "Reporting:" + ".hidden" == "Reporting:.hidden";
    }
  }
}
