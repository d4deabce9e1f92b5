/**
 * The constructor doc-string parser of the domain mapper
 * (`DomainMapper._parse_doc_string`): every line of the form
 * `label : name : description` contributes `name -> description`.
 */
module DocString {
  import opened Errors
  import opened Text

  /** The lines the parser walks: tabs removed, the whole text stripped, split on new lines. */
  function Lines(doc: string): seq<string>
  {
    Split(Strip(Remove(doc, '\t')), '\n')
  }

  /** `line` is `label:name:description` with no further colon in any of the three. */
  ghost predicate ThreeFields(line: string, head: string, name: string, desc: string)
  {
    && ':' !in head && ':' !in name && ':' !in desc
    && line == head + [':'] + name + [':'] + desc
  }

  /**
   * What one line contributes: the stripped second and third colon-separated
   * segments when the line has exactly three of them, nothing otherwise.
   */
  function LineEntry(line: string): (r: Option<(string, string)>)
    ensures r.Some? <==> Count(line, ':') == 2
  {
    var parts := Split(line, ':');
    if |parts| != 3 then None else Some((Strip(parts[1]), Strip(parts[2])))
  }

  /** An entry comes from a line made of exactly three colon-free fields. */
  lemma LineEntryFields(line: string)
    requires LineEntry(line).Some?
    ensures exists head, name, desc :: && ThreeFields(line, head, name, desc)
                                       && LineEntry(line).value == (Strip(name), Strip(desc))
  {
    var parts := Split(line, ':');
    assert parts[0] in parts && parts[1] in parts && parts[2] in parts;
    assert parts == [parts[0], parts[1], parts[2]];
    JoinThree(parts[0], parts[1], parts[2], ':');
    assert ThreeFields(line, parts[0], parts[1], parts[2]);
    assert LineEntry(line).value == (Strip(parts[1]), Strip(parts[2]));
  }

  /** The converse of `LineEntry`'s contract: a three-field line yields its stripped name and description. */
  lemma LineEntryOfFields(line: string, head: string, name: string, desc: string)
    requires ThreeFields(line, head, name, desc)
    ensures LineEntry(line) == Some((Strip(name), Strip(desc)))
  {
    JoinThree(head, name, desc, ':');
    SplitJoin([head, name, desc], ':');
  }

  /** `line` contributes an entry under `key`. */
  predicate Declares(line: string, key: string)
  {
    LineEntry(line).Some? && LineEntry(line).value.0 == key
  }

  /** The map built by visiting `lines` in order; a later line overwrites an earlier one. */
  function DescOf(lines: seq<string>): map<string, string>
  {
    if lines == [] then map[]
    else
      var m := DescOf(lines[..|lines| - 1]);
      match LineEntry(lines[|lines| - 1])
      case None => m
      case Some((key, val)) => m[key := val]
  }

  /** The parser's result: empty for a missing or empty doc-string. */
  function DocMap(doc: Option<string>): map<string, string>
  {
    if doc.None? || doc.value == [] then map[] else DescOf(Lines(doc.value))
  }

  /** `_parse_doc_string`, walking the lines and filling the map in place. */
  method ParseDocString(doc: Option<string>) returns (paramToDescMap: map<string, string>)
    ensures paramToDescMap == DocMap(doc)
  {
    if doc.None? || doc.value == [] {
      return map[];
    }
    var lines := Split(Strip(Remove(doc.value, '\t')), '\n');
    paramToDescMap := map[];
    for i := 0 to |lines|
      invariant paramToDescMap == DescOf(lines[..i])
    {
      assert lines[..i + 1][..i] == lines[..i];
      var tmp := Split(lines[i], ':');
      if |tmp| != 3 {
        continue;
      }
      var key := Strip(tmp[1]);
      var val := Strip(tmp[2]);
      paramToDescMap := paramToDescMap[key := val];
    }
    assert lines[..|lines|] == lines;
  }

  /** The last line adds its key to the keys of the lines before it. */
  lemma DescOfLastKey(lines: seq<string>, key: string)
    requires lines != []
    ensures key in DescOf(lines) <==> key in DescOf(lines[..|lines| - 1]) || Declares(lines[|lines| - 1], key)
  {
  }

  /** The last line sets the value of its own key and leaves every other key's value alone. */
  lemma DescOfLastValue(lines: seq<string>, key: string)
    requires key in DescOf(lines)
    ensures Declares(lines[|lines| - 1], key) ==> LineEntry(lines[|lines| - 1]) == Some((key, DescOf(lines)[key]))
    ensures !Declares(lines[|lines| - 1], key) ==>
              key in DescOf(lines[..|lines| - 1]) && DescOf(lines)[key] == DescOf(lines[..|lines| - 1])[key]
  {
  }

  /** A key is present exactly when some line declares it. */
  lemma DescOfKeys(lines: seq<string>, key: string)
    ensures key in DescOf(lines) <==> exists i :: 0 <= i < |lines| && Declares(lines[i], key)
  {
    if key in DescOf(lines) {
      DescOfKeyDeclared(lines, key);
    } else {
      forall i | 0 <= i < |lines|
        ensures !Declares(lines[i], key)
      {
        if Declares(lines[i], key) {
          DeclaredKeyIn(lines, key, i);
        }
      }
    }
  }

  lemma {:induction false} DescOfKeyDeclared(lines: seq<string>, key: string)
    requires key in DescOf(lines)
    ensures exists i :: 0 <= i < |lines| && Declares(lines[i], key)
  {
    var n := |lines|;
    DescOfLastKey(lines, key);
    if !Declares(lines[n - 1], key) {
      var init := lines[..n - 1];
      DescOfKeyDeclared(init, key);
      var i :| 0 <= i < n - 1 && Declares(init[i], key);
      assert lines[i] == init[i];
    }
  }

  lemma {:induction false} DeclaredKeyIn(lines: seq<string>, key: string, i: int)
    requires 0 <= i < |lines| && Declares(lines[i], key)
    ensures key in DescOf(lines)
  {
    var n := |lines|;
    DescOfLastKey(lines, key);
    if i < n - 1 {
      var init := lines[..n - 1];
      assert init[i] == lines[i];
      DeclaredKeyIn(init, key, i);
    }
  }

  /** The value stored under a key is the description on the last line that declares it. */
  lemma {:induction false} DescOfLastWins(lines: seq<string>, key: string)
    requires key in DescOf(lines)
    ensures exists i :: && 0 <= i < |lines|
                        && LineEntry(lines[i]) == Some((key, DescOf(lines)[key]))
                        && forall j :: i < j < |lines| ==> !Declares(lines[j], key)
  {
    var n := |lines|;
    var init := lines[..n - 1];
    DescOfLastValue(lines, key);
    if !Declares(lines[n - 1], key) {
      DescOfLastWins(init, key);
      var i :| && 0 <= i < |init|
               && LineEntry(init[i]) == Some((key, DescOf(init)[key]))
               && forall j :: i < j < |init| ==> !Declares(init[j], key);
      NoLaterDeclaration(lines, init, key, i);
      assert lines[i] == init[i];
    }
  }

  /** No line after `i` declares `key` if none in the prefix does and the last line does not either. */
  lemma NoLaterDeclaration(lines: seq<string>, init: seq<string>, key: string, i: int)
    requires lines != [] && init == lines[..|lines| - 1] && 0 <= i < |init|
    requires forall j :: i < j < |init| ==> !Declares(init[j], key)
    requires !Declares(lines[|lines| - 1], key)
    ensures forall j :: i < j < |lines| ==> !Declares(lines[j], key)
  {
    forall j | i < j < |init|
      ensures !Declares(lines[j], key)
    {
      assert lines[j] == init[j];
    }
  }

  /** A missing doc-string, or one that is only white space, yields no descriptions. */
  lemma BlankDocMap(doc: Option<string>)
    requires doc.Some? ==> AllSpace(doc.value)
    ensures DocMap(doc) == map[]
  {
    if doc.Some? && doc.value != [] {
      var s := doc.value;
      var r := Remove(s, '\t');
      forall k | 0 <= k < |r|
        ensures IsSpace(r[k])
      {
        assert r[k] in r;
        var j :| 0 <= j < |s| && s[j] == r[k];
      }
      StripAllSpace(r);
      assert Lines(s) == [[]];
      assert DescOf(Lines(s)) == DescOf([]) by {
        assert Lines(s)[..0] == [];
      }
    }
  }

  /** A line without a colon splits into one piece and is skipped. */
  lemma NoColonNoEntry(line: string)
    requires ':' !in line
    ensures LineEntry(line) == None
  {
  }

  /**
   * A line `<head>:<tag><name>:<desc>` whose first field is only white space
   * (an indented line, or none at all) yields the key `<tag><name>` whole,
   * when that key has no white space at either end.
   */
  lemma LabelledKey(head: string, tag: string, name: string, desc: string)
    requires AllSpace(head)
    requires tag != [] && !IsSpace(tag[0]) && name != [] && !IsSpace(name[|name| - 1])
    requires ':' !in tag && ':' !in name && ':' !in desc
    ensures LineEntry(head + [':'] + tag + name + [':'] + desc) == Some((tag + name, Strip(desc)))
  {
    var key := tag + name;
    var line := head + [':'] + tag + name + [':'] + desc;
    assert line == head + [':'] + key + [':'] + desc;
    LineEntryOfFields(line, head, key, desc);
    assert key[0] == tag[0] && key[|key| - 1] == name[|name| - 1];
    StripTrimmed(key);
  }

  /**
   * A Sphinx-style parameter line `:param p: d`, indented or not, keeps the
   * `param` label inside the key: the entry is stored under `"param p"`,
   * never under `p`.
   */
  lemma SphinxParamKey(head: string, p: string, d: string)
    requires AllSpace(head)
    requires p != [] && !IsSpace(p[|p| - 1])
    requires ':' !in p && ':' !in d
    ensures LineEntry(head + [':'] + "param " + p + [':'] + d) == Some(("param " + p, Strip(d)))
    ensures !Declares(head + [':'] + "param " + p + [':'] + d, p)
  {
    LabelledKey(head, "param ", p, d);
    assert |"param " + p| == |p| + 6;
  }
}
