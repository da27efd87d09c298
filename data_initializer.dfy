/** `DataInitializer`: the seed-data loader. A prefix-driven line parser
    keeps a current ACL and a current group and saves each change to the
    stores as it goes; a failing line stops the run with the writes made
    before it kept. */
module Seed {
  import opened Domain
  import opened Text
  import opened AccessControl

  /** The principal kinds a seed `ACE:` line may name. The kind is checked
      and then dropped: a stored ACE keeps only its principal and operations. */
  datatype PrincipalType = USER | ROLE | GROUP

  /** The exceptions a seed line can raise. */
  datatype SeedError =
    | IllegalState(message: string)
    | IndexOutOfBounds(index: nat, length: nat)
    | NoEnumConstant(name: string)

  /** `PrincipalType.valueOf`: exact, case-sensitive constant names. */
  function PrincipalTypeOf(name: string): (r: Result<PrincipalType, SeedError>)
    ensures r.Ok? <==> name == "USER" || name == "ROLE" || name == "GROUP"
    ensures r.Err? ==> r.error == NoEnumConstant(name)
  {
    if name == "USER" then Ok(USER)
    else if name == "ROLE" then Ok(ROLE)
    else if name == "GROUP" then Ok(GROUP)
    else Err(NoEnumConstant(name))
  }

  /** `split(",").map { it.trim() }` collected into a set. */
  function TrimmedParts(text: string): set<string> {
    var parts := Split(text, ',');
    set k | 0 <= k < |parts| :: Trim(parts[k])
  }

  /** The three stores and the parser's two "current record" variables. */
  datatype SeedState = SeedState(
    acls: map<string, ACL>,
    aces: seq<ACE>,
    groups: map<string, Group>,
    currentAcl: Option<ACL>,
    currentGroup: Option<Group>)

  const Fresh := SeedState(map[], [], map[], None, None)

  /** Where a run stopped: the state reached, and the failure, if any. */
  datatype SeedRun = SeedRun(state: SeedState, failure: Option<SeedError>)

  /** Saving an ACL writes it under its name and makes it the current one. */
  function SaveAcl(st: SeedState, acl: ACL): SeedState {
    st.(acls := st.acls[acl.name := acl], currentAcl := Some(acl))
  }

  function SaveGroup(st: SeedState, g: Group): SeedState {
    st.(groups := st.groups[g.name := g], currentGroup := Some(g))
  }

  /** `ACE:type:principal:ops`: the colon fields are read first, then the
      type is checked, and only then is a current ACL needed. Fields after
      the fourth are ignored. */
  function AceOfLine(line: string): (r: Result<ACE, SeedError>)
    ensures r.Ok? <==> |Split(line, ':')| >= 4 && PrincipalTypeOf(Split(line, ':')[1]).Ok?
  {
    var fields := Split(line, ':');
    if |fields| < 4 then Err(IndexOutOfBounds(|fields|, |fields|))
    else
      match PrincipalTypeOf(fields[1])
      case Err(e) => Err(e)
      case Ok(_) => Ok(ACE(fields[2], TrimmedParts(fields[3])))
  }

  /** One seed line. The seven prefixes exclude each other (`PrefixesExclusive`),
      so the source's sequence of independent `if`s acts as a chain. */
  function SeedLine(st: SeedState, line: string): (r: Result<SeedState, SeedError>)
    ensures r.Err? <==>
              || ((StartsWith(line, "POLICY:") || StartsWith(line, "OWNER:")) && st.currentAcl.None?)
              || (StartsWith(line, "ACE:") && (AceOfLine(line).Err? || st.currentAcl.None?))
              || ((StartsWith(line, "MEMBER:") || StartsWith(line, "MEMBERS:")) && st.currentGroup.None?)
  {
    PrefixesExclusive(line);
    var rest := SubstringAfter(line, ':');
    if StartsWith(line, "ACL:") then
      Ok(SaveAcl(st, ACL(rest, None, None, {})))
    else if StartsWith(line, "POLICY:") then
      if st.currentAcl.None? then Err(IllegalState("POLICY line without ACL"))
      else Ok(SaveAcl(st, st.currentAcl.value.(policy := Some(rest))))
    else if StartsWith(line, "OWNER:") then
      if st.currentAcl.None? then Err(IllegalState("OWNER line without ACL"))
      else Ok(SaveAcl(st, st.currentAcl.value.(owner := Some(rest))))
    else if StartsWith(line, "ACE:") then
      match AceOfLine(line)
      case Err(e) => Err(e)
      case Ok(ace) =>
        if st.currentAcl.None? then Err(IllegalState("ACE line without ACL"))
        else
          var acl := st.currentAcl.value;
          Ok(SaveAcl(st.(aces := st.aces + [ace]), acl.(aces := acl.aces + {ace})))
    else if StartsWith(line, "GROUP:") then
      Ok(SaveGroup(st, Group(rest, {})))
    else if StartsWith(line, "MEMBER:") || StartsWith(line, "MEMBERS:") then
      if st.currentGroup.None? then Err(IllegalState("MEMBER line without GROUP"))
      else
        var g := st.currentGroup.value;
        Ok(SaveGroup(st, g.(members := g.members + TrimmedParts(rest))))
    else
      Ok(st)
  }

  /** The lines in order; the first failing line ends the run, and then the
      state is the one that line failed on. */
  function SeedLines(st: SeedState, lines: seq<string>): (r: SeedRun)
    ensures r.failure.Some? ==>
              exists k :: 0 <= k < |lines| && SeedLine(r.state, lines[k]) == Err(r.failure.value)
    decreases |lines|
  {
    if lines == [] then SeedRun(st, None)
    else
      match SeedLine(st, lines[0])
      case Err(e) => SeedRun(st, Some(e))
      case Ok(next) => SeedLines(next, lines[1..])
  }

  /** A line starts with at most one of the recognised prefixes. */
  lemma PrefixesExclusive(line: string)
    ensures StartsWith(line, "ACL:") ==>
              !StartsWith(line, "POLICY:") && !StartsWith(line, "OWNER:") && !StartsWith(line, "ACE:")
              && !StartsWith(line, "GROUP:") && !StartsWith(line, "MEMBER:") && !StartsWith(line, "MEMBERS:")
    ensures StartsWith(line, "POLICY:") ==>
              !StartsWith(line, "OWNER:") && !StartsWith(line, "ACE:")
              && !StartsWith(line, "GROUP:") && !StartsWith(line, "MEMBER:") && !StartsWith(line, "MEMBERS:")
    ensures StartsWith(line, "OWNER:") ==>
              !StartsWith(line, "ACE:") && !StartsWith(line, "GROUP:")
              && !StartsWith(line, "MEMBER:") && !StartsWith(line, "MEMBERS:")
    ensures StartsWith(line, "ACE:") ==>
              !StartsWith(line, "GROUP:") && !StartsWith(line, "MEMBER:") && !StartsWith(line, "MEMBERS:")
    ensures StartsWith(line, "GROUP:") ==> !StartsWith(line, "MEMBER:") && !StartsWith(line, "MEMBERS:")
  {
    if |line| > 0 {
      assert StartsWith(line, "ACL:") ==> line[0] == 'A' && line[2] == 'L';
      assert StartsWith(line, "ACE:") ==> line[0] == 'A' && line[2] == 'E';
      assert StartsWith(line, "POLICY:") ==> line[0] == 'P';
      assert StartsWith(line, "OWNER:") ==> line[0] == 'O';
      assert StartsWith(line, "GROUP:") ==> line[0] == 'G';
      assert StartsWith(line, "MEMBER:") ==> line[0] == 'M';
      assert StartsWith(line, "MEMBERS:") ==> line[0] == 'M';
    }
  }

  /** After a prefix ending in its only colon, `substringAfter(":")` is the
      rest of the line. */
  lemma AfterPrefix(line: string, prefix: string)
    requires |prefix| >= 1 && prefix[|prefix| - 1] == ':' && ':' !in prefix[..|prefix| - 1]
    requires StartsWith(line, prefix)
    ensures SubstringAfter(line, ':') == line[|prefix|..]
  {
    var a := prefix[..|prefix| - 1];
    assert line == a + [':'] + line[|prefix|..];
    IndexOfPrefix(a, ':', line[|prefix|..]);
  }

  /** `ACL:name` saves and makes current a fresh ACL with that name and no
      policy, owner or ACEs; nothing else changes. */
  lemma AclLineStartsRecord(st: SeedState, name: string)
    ensures SeedLine(st, "ACL:" + name)
         == Ok(st.(acls := st.acls[name := ACL(name, None, None, {})], currentAcl := Some(ACL(name, None, None, {}))))
  {
    var line := "ACL:" + name;
    assert StartsWith(line, "ACL:");
    AfterPrefix(line, "ACL:");
    assert line[4..] == name;
  }

  /** `POLICY:p` sets the policy of the current ACL to `p`, keeping its
      name, owner and ACEs, and saves it; without a current ACL it fails. */
  lemma PolicyLineSetsPolicy(st: SeedState, p: string)
    ensures var r := SeedLine(st, "POLICY:" + p);
            && (st.currentAcl.None? ==> r == Err(IllegalState("POLICY line without ACL")))
            && (st.currentAcl.Some? ==>
                  var acl := st.currentAcl.value.(policy := Some(p));
                  r == Ok(st.(acls := st.acls[acl.name := acl], currentAcl := Some(acl))))
  {
    var line := "POLICY:" + p;
    assert StartsWith(line, "POLICY:");
    PrefixesExclusive(line);
    AfterPrefix(line, "POLICY:");
    assert line[7..] == p;
  }

  /** `OWNER:o` sets the owner of the current ACL to `o`, keeping its name,
      policy and ACEs, and saves it; without a current ACL it fails. */
  lemma OwnerLineSetsOwner(st: SeedState, o: string)
    ensures var r := SeedLine(st, "OWNER:" + o);
            && (st.currentAcl.None? ==> r == Err(IllegalState("OWNER line without ACL")))
            && (st.currentAcl.Some? ==>
                  var acl := st.currentAcl.value.(owner := Some(o));
                  r == Ok(st.(acls := st.acls[acl.name := acl], currentAcl := Some(acl))))
  {
    var line := "OWNER:" + o;
    assert StartsWith(line, "OWNER:");
    PrefixesExclusive(line);
    AfterPrefix(line, "OWNER:");
    assert line[6..] == o;
  }

  /** An `ACE:` line made of colon-free fields `ACE`, a type, a principal
      and an operation list (and possibly more fields, ignored): with a known
      type and a current ACL it adds the ACE of that principal with the
      trimmed operations to the ACL and to the ACE store. The type is
      checked before the current ACL. */
  lemma {:induction false} AceLineAddsAce(st: SeedState, fields: seq<string>)
    requires |fields| >= 4 && fields[0] == "ACE"
    requires forall k :: 0 <= k < |fields| ==> ':' !in fields[k]
    ensures var r := SeedLine(st, Join(fields, ':'));
            var ace := ACE(fields[2], TrimmedParts(fields[3]));
            && (PrincipalTypeOf(fields[1]).Err? ==> r == Err(NoEnumConstant(fields[1])))
            && (PrincipalTypeOf(fields[1]).Ok? && st.currentAcl.None? ==> r == Err(IllegalState("ACE line without ACL")))
            && (PrincipalTypeOf(fields[1]).Ok? && st.currentAcl.Some? ==>
                  var acl := st.currentAcl.value.(aces := st.currentAcl.value.aces + {ace});
                  r == Ok(st.(acls := st.acls[acl.name := acl], aces := st.aces + [ace], currentAcl := Some(acl))))
  {
    var line := Join(fields, ':');
    SplitJoin(fields, ':');
    assert line == "ACE" + [':'] + Join(fields[1..], ':');
    assert line[..4] == "ACE:";
    assert StartsWith(line, "ACE:");
    PrefixesExclusive(line);
  }

  /** An `ACE:` line with fewer than four colon fields fails when the
      missing field is read, before the type or the current ACL is looked at. */
  lemma {:induction false} ShortAceLineFails(st: SeedState, fields: seq<string>)
    requires 2 <= |fields| < 4 && fields[0] == "ACE"
    requires forall k :: 0 <= k < |fields| ==> ':' !in fields[k]
    ensures SeedLine(st, Join(fields, ':')) == Err(IndexOutOfBounds(|fields|, |fields|))
  {
    var line := Join(fields, ':');
    SplitJoin(fields, ':');
    assert line == "ACE" + [':'] + Join(fields[1..], ':');
    assert line[..4] == "ACE:";
    assert StartsWith(line, "ACE:");
    PrefixesExclusive(line);
  }

  /** `GROUP:name` saves and makes current an empty group; the current ACL
      and the ACL store are left as they were. */
  lemma GroupLineKeepsCurrentAcl(st: SeedState, name: string)
    ensures SeedLine(st, "GROUP:" + name)
         == Ok(st.(groups := st.groups[name := Group(name, {})], currentGroup := Some(Group(name, {}))))
  {
    var line := "GROUP:" + name;
    assert StartsWith(line, "GROUP:");
    PrefixesExclusive(line);
    AfterPrefix(line, "GROUP:");
    assert line[6..] == name;
  }

  /** `MEMBER:` and `MEMBERS:` add the trimmed comma-separated names to the
      current group and save it; without a current group they fail. */
  lemma MemberLineAddsMembers(st: SeedState, prefix: string, names: string)
    requires prefix == "MEMBER:" || prefix == "MEMBERS:"
    ensures var r := SeedLine(st, prefix + names);
            && (st.currentGroup.None? ==> r == Err(IllegalState("MEMBER line without GROUP")))
            && (st.currentGroup.Some? ==>
                  var g := st.currentGroup.value.(members := st.currentGroup.value.members + TrimmedParts(names));
                  r == Ok(st.(groups := st.groups[g.name := g], currentGroup := Some(g))))
  {
    var line := prefix + names;
    assert StartsWith(line, prefix);
    PrefixesExclusive(line);
    assert line[0] == 'M';
    AfterPrefix(line, prefix);
    assert line[|prefix|..] == names;
  }

  /** A line with none of the prefixes is skipped. */
  lemma UnrecognisedLineSkipped(st: SeedState, line: string)
    requires !StartsWith(line, "ACL:") && !StartsWith(line, "POLICY:") && !StartsWith(line, "OWNER:")
    requires !StartsWith(line, "ACE:") && !StartsWith(line, "GROUP:")
    requires !StartsWith(line, "MEMBER:") && !StartsWith(line, "MEMBERS:")
    ensures SeedLine(st, line) == Ok(st)
  {
  }

  /** The stores are keyed by name and the current records are the stored ones. */
  ghost predicate Consistent(st: SeedState) {
    && KeyedByName(st.acls) && GroupsKeyedByName(st.groups)
    && (st.currentAcl.Some? ==> st.currentAcl.value.name in st.acls && st.acls[st.currentAcl.value.name] == st.currentAcl.value)
    && (st.currentGroup.Some? ==> st.currentGroup.value.name in st.groups && st.groups[st.currentGroup.value.name] == st.currentGroup.value)
  }

  /** Saving an ACL or a group keeps the state consistent and forgets nothing. */
  lemma SaveAclConsistent(st: SeedState, acl: ACL)
    requires Consistent(st)
    ensures Consistent(SaveAcl(st, acl)) && st.acls.Keys <= SaveAcl(st, acl).acls.Keys
  {
  }

  lemma SaveGroupConsistent(st: SeedState, g: Group)
    requires Consistent(st)
    ensures Consistent(SaveGroup(st, g)) && st.groups.Keys <= SaveGroup(st, g).groups.Keys
  {
  }

  /** Every change is saved at once: one line keeps the stores consistent
      with the current records, never forgets a stored name, and only
      appends to the ACE store. */
  lemma SeedLineKeepsConsistent(st: SeedState, line: string)
    requires Consistent(st)
    ensures SeedLine(st, line).Ok? ==>
              var next := SeedLine(st, line).value;
              && Consistent(next)
              && st.acls.Keys <= next.acls.Keys && st.groups.Keys <= next.groups.Keys
              && st.aces <= next.aces
  {
    var rest := SubstringAfter(line, ':');
    if StartsWith(line, "ACL:") {
      SaveAclConsistent(st, ACL(rest, None, None, {}));
    } else if StartsWith(line, "POLICY:") || StartsWith(line, "OWNER:") {
      if st.currentAcl.Some? {
        SaveAclConsistent(st, st.currentAcl.value.(policy := Some(rest)));
        SaveAclConsistent(st, st.currentAcl.value.(owner := Some(rest)));
      }
    } else if StartsWith(line, "ACE:") {
      if AceOfLine(line).Ok? && st.currentAcl.Some? {
        var ace := AceOfLine(line).value;
        var acl := st.currentAcl.value;
        SaveAclConsistent(st.(aces := st.aces + [ace]), acl.(aces := acl.aces + {ace}));
      }
    } else if StartsWith(line, "GROUP:") {
      SaveGroupConsistent(st, Group(rest, {}));
    } else if StartsWith(line, "MEMBER:") || StartsWith(line, "MEMBERS:") {
      if st.currentGroup.Some? {
        var g := st.currentGroup.value;
        SaveGroupConsistent(st, g.(members := g.members + TrimmedParts(rest)));
      }
    }
  }

  /** Over a whole run: consistency holds throughout, stored names are never
      forgotten, and the ACE store only grows at the end. */
  lemma {:induction false} SeedLinesKeepConsistent(st: SeedState, lines: seq<string>)
    requires Consistent(st)
    ensures var end := SeedLines(st, lines).state;
            && Consistent(end)
            && st.acls.Keys <= end.acls.Keys && st.groups.Keys <= end.groups.Keys
            && st.aces <= end.aces
    decreases |lines|
  {
    if lines != [] {
      SeedLineKeepsConsistent(st, lines[0]);
      if SeedLine(st, lines[0]).Ok? {
        SeedLinesKeepConsistent(SeedLine(st, lines[0]).value, lines[1..]);
      }
    }
  }

  /** A run over `a + b` is the run over `a` followed, if it did not fail,
      by the run over `b`: nothing after a failing line is read. */
  lemma {:induction false} SeedLinesAppend(st: SeedState, a: seq<string>, b: seq<string>)
    ensures SeedLines(st, a + b)
         == (var first := SeedLines(st, a);
             if first.failure.Some? then first else SeedLines(first.state, b))
    decreases |a|
  {
    if a == [] {
      assert a + b == b;
    } else {
      assert (a + b)[0] == a[0];
      assert (a + b)[1..] == a[1..] + b;
      if SeedLine(st, a[0]).Ok? {
        SeedLinesAppend(SeedLine(st, a[0]).value, a[1..], b);
      }
    }
  }

  /** The loader over the three repositories. */
  class DataInitializer {
    const repos: Repositories

    constructor (repos: Repositories)
      ensures this.repos == repos
    {
      this.repos := repos;
    }

    /** Loads `dataFile` (the lines of the configured file, `None` when none
        is configured) only when all three stores are empty. On a failing
        line the stores keep what was saved before it. */
    method Run(dataFile: Option<seq<string>>) returns (failure: Option<SeedError>)
      modifies repos
      ensures if dataFile.Some? && old(|repos.acls| == 0 && |repos.aces| == 0 && |repos.groups| == 0) then
                var run := SeedLines(Fresh, dataFile.value);
                && repos.acls == run.state.acls && repos.aces == run.state.aces && repos.groups == run.state.groups
                && failure == run.failure
              else
                unchanged(repos) && failure.None?
    {
      if dataFile.None? || |repos.acls| != 0 || |repos.aces| != 0 || |repos.groups| != 0 {
        return None;
      }
      var lines := dataFile.value;
      assert repos.acls == map[] && repos.aces == [] && repos.groups == map[];
      var currentAcl: Option<ACL> := None;
      var currentGroup: Option<Group> := None;
      for i := 0 to |lines|
        invariant SeedLines(SeedState(repos.acls, repos.aces, repos.groups, currentAcl, currentGroup), lines[i..])
               == SeedLines(Fresh, lines)
      {
        var line := lines[i];
        ghost var before := SeedState(repos.acls, repos.aces, repos.groups, currentAcl, currentGroup);
        assert lines[i..][0] == line && lines[i..][1..] == lines[i + 1..];
        PrefixesExclusive(line);
        if StartsWith(line, "ACL:") {
          currentAcl := Some(ACL(SubstringAfter(line, ':'), None, None, {}));
          repos.acls := repos.acls[currentAcl.value.name := currentAcl.value];
        }
        if StartsWith(line, "POLICY:") {
          if currentAcl.None? {
            return Some(IllegalState("POLICY line without ACL"));
          }
          currentAcl := Some(currentAcl.value.(policy := Some(SubstringAfter(line, ':'))));
          repos.acls := repos.acls[currentAcl.value.name := currentAcl.value];
        }
        if StartsWith(line, "OWNER:") {
          if currentAcl.None? {
            return Some(IllegalState("OWNER line without ACL"));
          }
          currentAcl := Some(currentAcl.value.(owner := Some(SubstringAfter(line, ':'))));
          repos.acls := repos.acls[currentAcl.value.name := currentAcl.value];
        }
        if StartsWith(line, "ACE:") {
          var fields := Split(line, ':');
          if |fields| < 4 {
            return Some(IndexOutOfBounds(|fields|, |fields|));
          }
          var principalType := PrincipalTypeOf(fields[1]);
          if principalType.Err? {
            return Some(principalType.error);
          }
          var ace := ACE(fields[2], TrimmedParts(fields[3]));
          if currentAcl.None? {
            return Some(IllegalState("ACE line without ACL"));
          }
          currentAcl := Some(currentAcl.value.(aces := currentAcl.value.aces + {ace}));
          repos.aces := repos.aces + [ace];
          repos.acls := repos.acls[currentAcl.value.name := currentAcl.value];
        }
        if StartsWith(line, "GROUP:") {
          currentGroup := Some(Group(SubstringAfter(line, ':'), {}));
          repos.groups := repos.groups[currentGroup.value.name := currentGroup.value];
        }
        if StartsWith(line, "MEMBER:") || StartsWith(line, "MEMBERS:") {
          if currentGroup.None? {
            return Some(IllegalState("MEMBER line without GROUP"));
          }
          currentGroup := Some(currentGroup.value.(members := currentGroup.value.members + TrimmedParts(SubstringAfter(line, ':'))));
          repos.groups := repos.groups[currentGroup.value.name := currentGroup.value];
        }
        assert SeedLine(before, line) == Ok(SeedState(repos.acls, repos.aces, repos.groups, currentAcl, currentGroup));
      }
      assert lines[|lines|..] == [];
      return None;
    }
  }

  /** A loaded store is keyed by name, whether or not the run failed. */
  lemma SeedRunKeyedByName(lines: seq<string>)
    ensures KeyedByName(SeedLines(Fresh, lines).state.acls)
    ensures GroupsKeyedByName(SeedLines(Fresh, lines).state.groups)
  {
    SeedLinesKeepConsistent(Fresh, lines);
  }
}
