/** Which commit a revision names on a remote: a branch, a tag, a full SHA, or
    nothing for the default branch. */
module GitRefs {
  import opened Common
  import opened Objects

  datatype RefTarget = Hash(sha: string) | Symbolic(target: string)

  datatype Ref = Ref(name: string, to: RefTarget)

  datatype Revision = Revision(sha: string, ref: string)

  const ZERO_HASH := "0000000000000000000000000000000000000000"
  const HEAD := "HEAD"

  function HashOf(r: Ref): string {
    if r.to.Hash? then r.to.sha else ZERO_HASH
  }

  function BranchName(revision: string): string {
    "refs/heads/" + revision
  }

  function TagName(revision: string): string {
    "refs/tags/" + revision
  }

  /** The entry that an annotated tag has besides its own: the commit. */
  function PeeledName(revision: string): string {
    TagName(revision) + "^{}"
  }

  function FirstNamed(refs: seq<Ref>, name: string): Option<Ref> {
    if refs == [] then None else if refs[0].name == name then Some(refs[0]) else FirstNamed(refs[1..], name)
  }

  function LastNamed(refs: seq<Ref>, name: string): Option<Ref> {
    if refs == [] then None
    else if Last(refs).name == name then Some(Last(refs))
    else LastNamed(refs[..|refs| - 1], name)
  }

  /** A branch before an annotated tag's commit before a tag. */
  function Named(refs: seq<Ref>, revision: string): Option<Revision> {
    var branch := FirstNamed(refs, BranchName(revision));
    if branch.Some? then Some(Revision(HashOf(branch.value), branch.value.name)) else NamedTag(refs, revision)
  }

  function NamedTag(refs: seq<Ref>, revision: string): Option<Revision> {
    var peeled := LastNamed(refs, PeeledName(revision));
    var tag := FirstNamed(refs, TagName(revision));
    if peeled.Some? then Some(Revision(HashOf(peeled.value), TagName(revision)))
    else if tag.Some? then Some(Revision(HashOf(tag.value), tag.value.name))
    else None
  }

  /** short is the library's short form of a reference name. */
  function Resolved(refs: seq<Ref>, revision: string, short: string -> string): Option<Revision> {
    if IsSHA(revision) then Some(Revision(revision, revision))
    else if revision != "" then Named(refs, revision)
    else
      match LastNamed(refs, HEAD)
      case None => None
      case Some(head) =>
        (match head.to
         case Hash(sha) => Some(Revision(sha, HEAD))
         case Symbolic(target) => Named(refs, short(target)))
  }

  lemma NamesDiffer(revision: string)
    ensures BranchName(revision) != TagName(revision)
    ensures BranchName(revision) != PeeledName(revision)
    ensures TagName(revision) != PeeledName(revision)
  {
    assert BranchName(revision)[5] == 'h' && TagName(revision)[5] == 't' && PeeledName(revision)[5] == 't';
  }

  lemma {:induction false} FirstNamedAppend(refs: seq<Ref>, r: Ref, name: string)
    ensures FirstNamed(refs + [r], name) ==
            if FirstNamed(refs, name).Some? then FirstNamed(refs, name)
            else if r.name == name then Some(r) else None
  {
    if refs == [] {
      assert refs + [r] == [r];
    } else {
      FirstNamedAppend(refs[1..], r, name);
      assert (refs + [r])[1..] == refs[1..] + [r];
    }
  }

  /** One more reference in each of the three searches. */
  lemma OneMoreRef(refs: seq<Ref>, i: nat, revision: string)
    requires i < |refs|
    ensures
      var before, after := refs[..i], refs[..i + 1];
      && (FirstNamed(before, BranchName(revision)).None? ==>
            FirstNamed(after, BranchName(revision)) ==
            if refs[i].name == BranchName(revision) then Some(refs[i]) else None)
      && NamedTag(after, revision) ==
         if refs[i].name == PeeledName(revision) then Some(Revision(HashOf(refs[i]), TagName(revision)))
         else if refs[i].name == TagName(revision) && NamedTag(before, revision).None?
         then Some(Revision(HashOf(refs[i]), TagName(revision)))
         else NamedTag(before, revision)
  {
    NamesDiffer(revision);
    assert refs[..i + 1] == refs[..i] + [refs[i]];
    FirstNamedAppend(refs[..i], refs[i], BranchName(revision));
    FirstNamedAppend(refs[..i], refs[i], TagName(revision));
    assert refs[..i + 1][..i] == refs[..i];
    FirstNamedHasName(refs[..i], TagName(revision));
  }

  lemma {:induction false} FirstNamedHasName(refs: seq<Ref>, name: string)
    ensures FirstNamed(refs, name).Some? ==>
              FirstNamed(refs, name).value in refs && FirstNamed(refs, name).value.name == name
    ensures FirstNamed(refs, name).None? ==> forall r | r in refs :: r.name != name
  {
    if refs != [] && refs[0].name != name {
      FirstNamedHasName(refs[1..], name);
      assert refs == [refs[0]] + refs[1..];
    }
  }

  lemma {:induction false} LastNamedHasName(refs: seq<Ref>, name: string)
    ensures LastNamed(refs, name).Some? ==>
              LastNamed(refs, name).value in refs && LastNamed(refs, name).value.name == name
    ensures LastNamed(refs, name).None? ==> forall r | r in refs :: r.name != name
  {
    if refs != [] && Last(refs).name != name {
      LastNamedHasName(refs[..|refs| - 1], name);
      assert refs == refs[..|refs| - 1] + [Last(refs)];
    }
  }

  lemma {:induction false} FirstNamedOnceFound(refs: seq<Ref>, i: nat, name: string)
    requires i <= |refs| && FirstNamed(refs[..i], name).Some?
    ensures FirstNamed(refs, name) == FirstNamed(refs[..i], name)
    decreases |refs| - i
  {
    if i < |refs| {
      assert refs[..i + 1] == refs[..i] + [refs[i]];
      FirstNamedAppend(refs[..i], refs[i], name);
      FirstNamedOnceFound(refs, i + 1, name);
    } else {
      assert refs[..i] == refs;
    }
  }

  /** The search for a branch or tag. */
  method FindRevision(refs: seq<Ref>, revision: string) returns (found: Option<Revision>)
    ensures found == Named(refs, revision)
  {
    found := None;
    var branchTarget, tagTarget := BranchName(revision), TagName(revision);
    var peeled := PeeledName(revision);
    for i := 0 to |refs|
      invariant FirstNamed(refs[..i], branchTarget).None?
      invariant found == NamedTag(refs[..i], revision)
    {
      OneMoreRef(refs, i, revision);
      NamesDiffer(revision);
      var ref := refs[i];
      if ref.name == branchTarget {
        FirstNamedOnceFound(refs, i + 1, branchTarget);
        return Some(Revision(HashOf(ref), ref.name));
      } else if ref.name == tagTarget {
        if found.None? {
          found := Some(Revision(HashOf(ref), ref.name));
        }
      } else if ref.name == peeled {
        found := Some(Revision(HashOf(ref), tagTarget));
      }
    }
    assert refs[..|refs|] == refs;
  }

  method FindHead(refs: seq<Ref>) returns (head: Option<Ref>)
    ensures head == LastNamed(refs, HEAD)
  {
    head := None;
    for i := 0 to |refs|
      invariant head == LastNamed(refs[..i], HEAD)
    {
      assert refs[..i + 1][..i] == refs[..i];
      if refs[i].name == HEAD {
        head := Some(refs[i]);
      }
    }
    assert refs[..|refs|] == refs;
  }

  /** ResolveRevision; listed is None where the remote cannot be listed. */
  method ResolveRevision(listed: Option<seq<Ref>>, revision: string, short: string -> string)
    returns (r: Option<Revision>)
    ensures r == if listed.Some? then Resolved(listed.value, revision, short)
                 else if IsSHA(revision) then Some(Revision(revision, revision)) else None
  {
    if IsSHA(revision) {
      return Some(Revision(revision, revision));
    }
    if listed.None? {
      return None;
    }
    var name := revision;
    if revision == "" {
      var head := FindHead(listed.value);
      if head.None? {
        return None;
      }
      if head.value.to.Hash? {
        return Some(Revision(head.value.to.sha, HEAD));
      }
      name := short(head.value.to.target);
    }
    r := FindRevision(listed.value, name);
  }

  method HasRevisionChanged(listed: Option<seq<Ref>>, revision: string, known: string, short: string -> string)
    returns (changed: bool, r: Option<Revision>)
    ensures r.None? ==> !changed
    ensures r.Some? ==> (changed <==> r.value.sha != known)
    ensures IsSHA(revision) ==> (changed <==> revision != known)
    ensures listed.Some? ==> r == Resolved(listed.value, revision, short)
  {
    r := ResolveRevision(listed, revision, short);
    changed := r.Some? && r.value.sha != known;
  }

  // ---------------------------------------------------- the remote as a set

  predicate DistinctNames(refs: seq<Ref>) {
    forall i, j | 0 <= i < j < |refs| :: refs[i].name != refs[j].name
  }

  lemma {:induction false} DistinctCounts(refs: seq<Ref>, r: Ref)
    requires DistinctNames(refs)
    ensures multiset(refs)[r] <= 1
  {
    if refs != [] {
      var n := |refs| - 1;
      DistinctCounts(refs[..n], r);
      assert refs == refs[..n] + [refs[n]];
      assert refs[n] !in refs[..n];
    }
  }

  lemma TwiceCounts(refs: seq<Ref>, i: nat, j: nat)
    requires i < j < |refs| && refs[i] == refs[j]
    ensures multiset(refs)[refs[i]] >= 2
  {
    assert refs == refs[..j] + refs[j..];
    assert refs[..j][i] == refs[i] && refs[j..][0] == refs[j];
    assert refs[i] in refs[..j] && refs[i] in refs[j..];
  }

  lemma SameName(refs: seq<Ref>, r: Ref, q: Ref)
    requires DistinctNames(refs) && r in refs && q in refs && r.name == q.name
    ensures r == q
  {
  }

  /** Names stay distinct in any order. */
  lemma DistinctPermutes(refs: seq<Ref>, other: seq<Ref>)
    requires multiset(refs) == multiset(other) && DistinctNames(refs)
    ensures DistinctNames(other)
  {
    forall i, j | 0 <= i < j < |other|
      ensures other[i].name != other[j].name
    {
      assert other[i] in multiset(other) && other[j] in multiset(other);
      assert other[i] in refs && other[j] in refs;
      DistinctCounts(refs, other[i]);
      if other[i].name == other[j].name {
        SameName(refs, other[i], other[j]);
        TwiceCounts(other, i, j);
      }
    }
  }

  lemma NamedUniquely(refs: seq<Ref>, name: string)
    requires DistinctNames(refs)
    ensures FirstNamed(refs, name) == LastNamed(refs, name)
    ensures forall r | r in refs && r.name == name :: FirstNamed(refs, name) == Some(r)
  {
    FirstNamedHasName(refs, name);
    LastNamedHasName(refs, name);
  }

  lemma SameSearches(refs: seq<Ref>, other: seq<Ref>, name: string)
    requires multiset(refs) == multiset(other) && DistinctNames(refs) && DistinctNames(other)
    ensures FirstNamed(refs, name) == FirstNamed(other, name)
    ensures LastNamed(refs, name) == LastNamed(other, name)
  {
    NamedUniquely(refs, name);
    NamedUniquely(other, name);
    FirstNamedHasName(refs, name);
    FirstNamedHasName(other, name);
    assert forall r :: r in multiset(refs) <==> r in refs;
    assert forall r :: r in multiset(other) <==> r in other;
  }

  lemma SameNamed(refs: seq<Ref>, other: seq<Ref>, revision: string)
    requires multiset(refs) == multiset(other) && DistinctNames(refs) && DistinctNames(other)
    ensures Named(refs, revision) == Named(other, revision)
  {
    SameSearches(refs, other, BranchName(revision));
    SameSearches(refs, other, PeeledName(revision));
    SameSearches(refs, other, TagName(revision));
  }

  /** The order in which the remote lists its references does not matter. */
  lemma OrderDoesNotMatter(refs: seq<Ref>, other: seq<Ref>, revision: string, short: string -> string)
    requires multiset(refs) == multiset(other) && DistinctNames(refs)
    ensures Resolved(refs, revision, short) == Resolved(other, revision, short)
  {
    DistinctPermutes(refs, other);
    SameSearches(refs, other, HEAD);
    SameNamed(refs, other, revision);
    forall target: string
      ensures Named(refs, short(target)) == Named(other, short(target))
    {
      SameNamed(refs, other, short(target));
    }
  }

  /** The name that is looked for among the branches and tags: the revision,
      or for the default branch what a symbolic HEAD stands for. */
  function NameAsked(refs: seq<Ref>, revision: string, short: string -> string): Option<string> {
    if IsSHA(revision) then None
    else if revision != "" then Some(revision)
    else
      match LastNamed(refs, HEAD)
      case Some(Ref(_, Symbolic(target))) => Some(short(target))
      case _ => None
  }

  /** The result is what this reference points at, under this name; a symbolic
      reference points at no commit. */
  predicate PointsAt(r: Option<Revision>, q: Ref, name: string) {
    && r.Some? && r.value.ref == name
    && match q.to
       case Hash(sha) => r.value.sha == sha
       case Symbolic(_) => r.value.sha == "0000000000000000000000000000000000000000"
  }

  /** A name that is asked for resolves to the branch, else to the commit of
      the annotated tag, else to the tag, and fails exactly if the remote has
      none of them. */
  lemma PriorityChoice(refs: seq<Ref>, revision: string, short: string -> string)
    requires DistinctNames(refs) && NameAsked(refs, revision, short).Some?
    ensures
      var name, r := NameAsked(refs, revision, short).value, Resolved(refs, revision, short);
      var branch, peeled, tag := "refs/heads/" + name, "refs/tags/" + name + "^{}", "refs/tags/" + name;
      && (forall q | q in refs && q.name == branch :: PointsAt(r, q, branch))
      && ((forall q | q in refs :: q.name != branch) ==>
            && (forall q | q in refs && q.name == peeled :: PointsAt(r, q, tag))
            && ((forall q | q in refs :: q.name != peeled) ==>
                  forall q | q in refs && q.name == tag :: PointsAt(r, q, tag)))
      && (r.None? <==> forall q | q in refs :: q.name != branch && q.name != peeled && q.name != tag)
  {
    var name := NameAsked(refs, revision, short).value;
    NamedUniquely(refs, BranchName(name));
    NamedUniquely(refs, PeeledName(name));
    NamedUniquely(refs, TagName(name));
    FirstNamedHasName(refs, BranchName(name));
    LastNamedHasName(refs, PeeledName(name));
    FirstNamedHasName(refs, TagName(name));
  }

  /** Nothing else is looked up: a SHA is itself, and the default branch is
      what a direct HEAD says, or is not resolved without one. */
  lemma UnaskedChoice(refs: seq<Ref>, revision: string, short: string -> string)
    requires DistinctNames(refs) && NameAsked(refs, revision, short).None?
    ensures IsSHA(revision) ==> Resolved(refs, revision, short) == Some(Revision(revision, revision))
    ensures !IsSHA(revision) ==>
              && revision == ""
              && (forall r | r in refs && r.name == "HEAD" :: PointsAt(Resolved(refs, revision, short), r, "HEAD"))
              && (Resolved(refs, revision, short).None? <==> forall r | r in refs :: r.name != "HEAD")
  {
    NamedUniquely(refs, HEAD);
    LastNamedHasName(refs, HEAD);
  }

  /** What counts as a full SHA, and when a name is asked for at all: a revision
      that is not one, or the target of a symbolic HEAD. */
  lemma AskedIff(refs: seq<Ref>, revision: string, short: string -> string, name: string)
    requires DistinctNames(refs)
    ensures IsSHA(revision) <==>
            |revision| == 40 && forall i | 0 <= i < 40 ::
              '0' <= revision[i] <= '9' || 'a' <= revision[i] <= 'f'
    ensures NameAsked(refs, revision, short) == Some(name) <==>
            && !IsSHA(revision)
            && if revision != "" then name == revision
               else exists q | q in refs :: q.name == "HEAD" && q.to.Symbolic? && name == short(q.to.target)
  {
    NamedUniquely(refs, HEAD);
    LastNamedHasName(refs, HEAD);
    if |revision| == 40 && forall i | 0 <= i < 40 :: '0' <= revision[i] <= '9' || 'a' <= revision[i] <= 'f' {
      forall c | c in revision
        ensures '0' <= c <= '9' || 'a' <= c <= 'f'
      {
        var i :| 0 <= i < 40 && revision[i] == c;
      }
    }
    if IsSHA(revision) {
      forall i | 0 <= i < 40
        ensures '0' <= revision[i] <= '9' || 'a' <= revision[i] <= 'f'
      {
        assert revision[i] in revision;
      }
    }
  }
}
