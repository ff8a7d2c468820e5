/** scripts/backfill_pierce_code_violation_owner.py: read the source rows page by page with
    ambiguity detection, then look owners up and write in chunks of parcels. */
module PierceOwner {
  import opened Wrappers
  import opened Seqs

  const BATCH := 100
  const MAX_PAGES := 50
  const OWNER_CHUNK := 20

  /** One feature of the Tacoma layer. */
  datatype Feature = Feature(
    num: string, caseType: Option<string>, address: Option<string>, parcel: Option<string>)

  function Text(strip: string -> string, o: Option<string>): string { strip(if o.Some? then o.value else "") }

  /** The party_name the old scraper built from this row. */
  function Label(strip: string -> string, f: Feature): string {
    var t, a := Text(strip, f.caseType), Text(strip, f.address);
    if a != "" then t + " - " + a else t
  }

  /** What must agree between the features of one case. */
  function Sig(strip: string -> string, f: Feature): (string, Option<string>) { (Label(strip, f), f.parcel) }

  // ---------- what the layer holds ----------

  function OfCase(fs: seq<Feature>, num: string): seq<Feature> {
    if fs == [] then [] else OfCase(fs[..|fs| - 1], num) + if fs[|fs| - 1].num == num then [fs[|fs| - 1]] else []
  }

  /** WHERE casenumber IN (chunk) ORDER BY objectid. */
  function Matching(fs: seq<Feature>, chunk: seq<string>): seq<Feature> {
    if fs == [] then [] else Matching(fs[..|fs| - 1], chunk) + if fs[|fs| - 1].num in chunk then [fs[|fs| - 1]] else []
  }

  ghost predicate Agreed(strip: string -> string, fs: seq<Feature>) {
    forall i, j :: 0 <= i < |fs| && 0 <= j < |fs| ==> Sig(strip, fs[i]) == Sig(strip, fs[j])
  }

  lemma {:induction false} OfCaseConcat(a: seq<Feature>, b: seq<Feature>, num: string)
    ensures OfCase(a + b, num) == OfCase(a, num) + OfCase(b, num)
  {
    if b == [] {
      assert a + b == a;
    } else {
      var n := |b| - 1;
      assert (a + b)[..|a + b| - 1] == a + b[..n];
      OfCaseConcat(a, b[..n], num);
      Assoc(OfCase(a, num), OfCase(b[..n], num), if b[n].num == num then [b[n]] else []);
    }
  }

  lemma {:induction false} OfCaseMatching(fs: seq<Feature>, chunk: seq<string>, num: string)
    ensures OfCase(Matching(fs, chunk), num) == if num in chunk then OfCase(fs, num) else []
  {
    if fs != [] {
      var n := |fs| - 1;
      var last := if fs[n].num in chunk then [fs[n]] else [];
      OfCaseMatching(fs[..n], chunk, num);
      OfCaseConcat(Matching(fs[..n], chunk), last, num);
      OfOne(fs[n], num);
      assert OfCase([], num) == [];
    }
  }

  lemma OfOne(f: Feature, num: string)
    ensures OfCase([f], num) == if f.num == num then [f] else []
  {
    assert [f][..0] == [];
  }

  lemma {:induction false} InCase(fs: seq<Feature>, num: string, f: Feature)
    ensures f in OfCase(fs, num) <==> f in fs && f.num == num
  {
    if fs != [] {
      InCase(fs[..|fs| - 1], num, f);
      assert fs == fs[..|fs| - 1] + [fs[|fs| - 1]];
    }
  }

  lemma MembersAgree(strip: string -> string, c: seq<Feature>)
    ensures Agreed(strip, c) <==> forall f, g :: f in c && g in c ==> Sig(strip, f) == Sig(strip, g)
  {
    hide Sig;
    forall f, g | f in c && g in c && Agreed(strip, c) ensures Sig(strip, f) == Sig(strip, g) {
      var i :| 0 <= i < |c| && c[i] == f;
      var j :| 0 <= j < |c| && c[j] == g;
    }
  }

  /** All features of the case have one parcel and would have been given one label. */
  ghost predicate OneAnswer(strip: string -> string, fs: seq<Feature>, num: string) {
    forall f, g :: f in fs && g in fs && f.num == num && g.num == num ==> f.parcel == g.parcel && SameLabel(strip, f, g)
  }

  /** Column by column, what it is for a case's features to agree. */
  lemma AgreedIff(strip: string -> string, fs: seq<Feature>, num: string)
    ensures Agreed(strip, OfCase(fs, num)) <==> OneAnswer(strip, fs, num)
  {
    hide Sig, SameLabel, OfCase, Agreed;
    var c := OfCase(fs, num);
    MembersAgree(strip, c);
    if Agreed(strip, c) {
      forall f, g | f in fs && g in fs && f.num == num && g.num == num ensures f.parcel == g.parcel && SameLabel(strip, f, g) {
        InCase(fs, num, f);
        InCase(fs, num, g);
        SigIs(strip, f, g);
      }
    }
    if OneAnswer(strip, fs, num) {
      forall f, g | f in c && g in c ensures Sig(strip, f) == Sig(strip, g) {
        InCase(fs, num, f);
        InCase(fs, num, g);
        SigIs(strip, f, g);
      }
    }
  }

  lemma SigIs(strip: string -> string, f: Feature, g: Feature)
    ensures Sig(strip, f) == Sig(strip, g) <==> f.parcel == g.parcel && SameLabel(strip, f, g)
  {
  }

  /** The label: the case type, and the address if there is one. */
  predicate SameLabel(strip: string -> string, f: Feature, g: Feature) {
    var ft, gt := strip(if f.caseType == None then "" else f.caseType.value), strip(if g.caseType == None then "" else g.caseType.value);
    var fa, ga := strip(if f.address == None then "" else f.address.value), strip(if g.address == None then "" else g.address.value);
    (if fa == "" then ft else ft + " - " + fa) == (if ga == "" then gt else gt + " - " + ga)
  }

  /** The server: how many features it returns at an offset, and whether it says there is more. */
  datatype Server = Server(
    layer: seq<Feature>, take: (seq<string>, nat) -> nat, more: (seq<string>, nat) -> bool)

  function PageAt(s: Server, chunk: seq<string>, offset: nat): (p: seq<Feature>)
    ensures offset <= |Matching(s.layer, chunk)| ==>
      offset + |p| <= |Matching(s.layer, chunk)| && p == Matching(s.layer, chunk)[offset..offset + |p|]
  {
    var all := Matching(s.layer, chunk);
    if offset > |all| then []
    else if offset + s.take(chunk, offset) <= |all| then all[offset..offset + s.take(chunk, offset)] else all[offset..]
  }

  /** A page is never empty while features remain, and a short page without the
      exceededTransferLimit flag is the last one. */
  ghost predicate Honest(s: Server) {
    forall chunk, offset: nat ::
      var left := |Matching(s.layer, chunk)| - offset;
      var size := s.take(chunk, offset);
      && (left > 0 ==> size > 0)
      && (left <= 0 ==> !s.more(chunk, offset))
      && (size < BATCH && !s.more(chunk, offset) ==> left <= size)
  }

  // ---------- fetch_source_rows ----------

  /** What the dictionary and the ambiguous set say about one case. */
  ghost predicate Knows(strip: string -> string, fs: seq<Feature>, kept: Option<Feature>, flagged: bool) {
    kept == (if fs == [] then None else Some(fs[|fs| - 1])) && flagged == !Agreed(strip, fs)
  }

  function Kept(out: map<string, Feature>, num: string): Option<Feature> {
    if num in out then Some(out[num]) else None
  }

  ghost predicate Tracks(strip: string -> string, read: seq<Feature>, out: map<string, Feature>, ambiguous: set<string>) {
    forall num :: Knows(strip, OfCase(read, num), Kept(out, num), num in ambiguous)
  }

  /** Comparing a feature only with the last one kept is enough to notice any disagreement. */
  lemma AgreedNext(strip: string -> string, fs: seq<Feature>, f: Feature)
    ensures Agreed(strip, fs + [f]) <==>
      Agreed(strip, fs) && (fs == [] || Sig(strip, fs[|fs| - 1]) == Sig(strip, f))
  {
    var t := fs + [f];
    if Agreed(strip, t) {
      forall i, j | 0 <= i < |fs| && 0 <= j < |fs| ensures Sig(strip, fs[i]) == Sig(strip, fs[j]) {
        assert Sig(strip, t[i]) == Sig(strip, t[j]);
      }
      if fs != [] { assert Sig(strip, t[|fs| - 1]) == Sig(strip, t[|fs|]); }
    }
  }

  lemma KnowsNext(strip: string -> string, fs: seq<Feature>, kept: Option<Feature>, flagged: bool, f: Feature)
    requires Knows(strip, fs, kept, flagged)
    ensures Knows(strip, fs + [f], Some(f), flagged || (kept.Some? && Sig(strip, kept.value) != Sig(strip, f)))
  {
    AgreedNext(strip, fs, f);
    hide Agreed, Sig;
  }

  lemma TrackOne(strip: string -> string, read: seq<Feature>, out: map<string, Feature>, ambiguous: set<string>, f: Feature)
    requires Tracks(strip, read, out, ambiguous)
    ensures Tracks(strip, read + [f], out[f.num := f],
                   if f.num in out && Sig(strip, out[f.num]) != Sig(strip, f) then ambiguous + {f.num} else ambiguous)
  {
    hide Knows, Sig;
    var next := if f.num in out && Sig(strip, out[f.num]) != Sig(strip, f) then ambiguous + {f.num} else ambiguous;
    forall num ensures Knows(strip, OfCase(read + [f], num), Kept(out[f.num := f], num), num in next) {
      OfCaseConcat(read, [f], num);
      OfOne(f, num);
      assert Knows(strip, OfCase(read, num), Kept(out, num), num in ambiguous);
      if num == f.num {
        KnowsNext(strip, OfCase(read, num), Kept(out, num), num in ambiguous, f);
      } else {
        assert OfCase(read, num) + [] == OfCase(read, num);
      }
    }
  }

  /** One page: features of a case that was not asked for are passed over. */
  method ReadPage(strip: string -> string, page: seq<Feature>, chunk: seq<string>, ghost read: seq<Feature>,
                  out0: map<string, Feature>, ambiguous0: set<string>)
    returns (out: map<string, Feature>, ambiguous: set<string>)
    requires Tracks(strip, read, out0, ambiguous0)
    ensures Tracks(strip, read + Matching(page, chunk), out, ambiguous)
  {
    hide Tracks, Sig;
    out, ambiguous := out0, ambiguous0;
    assert read + Matching(page[..0], chunk) == read;
    for n := 0 to |page|
      invariant Tracks(strip, read + Matching(page[..n], chunk), out, ambiguous)
    {
      var f := page[n];
      ghost var before := read + Matching(page[..n], chunk);
      assert page[..n + 1][..n] == page[..n];
      assert read + Matching(page[..n + 1], chunk) == before + if f.num in chunk then [f] else [];
      if f.num in chunk {
        TrackOne(strip, before, out, ambiguous, f);
        if f.num in out && Sig(strip, out[f.num]) != Sig(strip, f) {
          ambiguous := ambiguous + {f.num};
        }
        out := out[f.num := f];
      } else {
        assert before + [] == before;
      }
    }
    assert page[..|page|] == page;
  }

  lemma {:induction false} AllMatch(fs: seq<Feature>, chunk: seq<string>)
    requires forall f :: f in fs ==> f.num in chunk
    ensures Matching(fs, chunk) == fs
  {
    if fs != [] {
      assert fs[|fs| - 1] in fs;
      AllMatch(fs[..|fs| - 1], chunk);
    }
  }

  lemma {:induction false} InMatching(fs: seq<Feature>, chunk: seq<string>, f: Feature)
    ensures f in Matching(fs, chunk) <==> f in fs && f.num in chunk
  {
    if fs != [] {
      InMatching(fs[..|fs| - 1], chunk, f);
      assert fs == fs[..|fs| - 1] + [fs[|fs| - 1]];
    }
  }

  lemma PageEnds(s: Server, chunk: seq<string>, offset: nat)
    requires Honest(s) && offset <= |Matching(s.layer, chunk)|
    ensures var p := PageAt(s, chunk, offset);
      if !s.more(chunk, offset) && |p| < BATCH then offset + |p| == |Matching(s.layer, chunk)| else |p| > 0
  {
  }

  lemma ReadOn(s: Server, chunk: seq<string>, read: seq<Feature>, offset: nat)
    requires Honest(s) && offset <= |Matching(s.layer, chunk)|
    ensures var all, p := Matching(s.layer, chunk), PageAt(s, chunk, offset);
      && offset + |p| <= |all| && Matching(p, chunk) == p
      && read + all[..offset] + p == read + all[..offset + |p|]
      && if !s.more(chunk, offset) && |p| < BATCH then all[..offset + |p|] == all else |p| > 0
  {
    hide Honest, Matching, PageAt;
    var all, p := Matching(s.layer, chunk), PageAt(s, chunk, offset);
    PageEnds(s, chunk, offset);
    PageMatches(s, chunk, offset);
    Glue(read, all, offset, offset + |p|);
    assert offset + |p| == |all| ==> all[..offset + |p|] == all;
  }

  lemma PageMatches(s: Server, chunk: seq<string>, offset: nat)
    requires offset <= |Matching(s.layer, chunk)|
    ensures Matching(PageAt(s, chunk, offset), chunk) == PageAt(s, chunk, offset)
  {
    hide Matching;
    var p := PageAt(s, chunk, offset);
    forall f | f in p ensures f.num in chunk { InMatching(s.layer, chunk, f); }
    AllMatch(p, chunk);
  }

  lemma Glue<T>(read: seq<T>, all: seq<T>, i: nat, j: nat)
    requires i <= j <= |all|
    ensures read + all[..i] + all[i..j] == read + all[..j]
  {
    assert all[..j] == all[..i] + all[i..j];
    Assoc(read, all[..i], all[i..j]);
  }

  /** Every page of one chunk of case numbers, or an abort at the page guard. */
  /** The server says within this many pages, from this offset on, that there is no more. */
  ghost predicate StopsWithin(s: Server, chunk: seq<string>, offset: nat, pages: nat)
    decreases pages
  {
    pages > 0
    && var size := |PageAt(s, chunk, offset)|;
       (!s.more(chunk, offset) && size < 100) || StopsWithin(s, chunk, offset + if size > 0 then size else 100, pages - 1)
  }

  lemma StopsNext(s: Server, chunk: seq<string>, offset: nat, pages: nat)
    requires pages > 0
    ensures var size := |PageAt(s, chunk, offset)|;
      StopsWithin(s, chunk, offset, pages) <==>
        (!s.more(chunk, offset) && size < BATCH)
        || StopsWithin(s, chunk, offset + if size > 0 then size else BATCH, pages - 1)
  {
    hide PageAt;
  }

  lemma StopsAtNone(s: Server, chunk: seq<string>, offset: nat)
    ensures !StopsWithin(s, chunk, offset, 0)
  {
  }

  method ReadChunk(strip: string -> string, s: Server, chunk: seq<string>, ghost read: seq<Feature>,
                   out0: map<string, Feature>, ambiguous0: set<string>)
    returns (ok: bool, out: map<string, Feature>, ambiguous: set<string>, pages: nat)
    requires Honest(s) && Tracks(strip, read, out0, ambiguous0)
    ensures ok ==> Tracks(strip, read + Matching(s.layer, chunk), out, ambiguous)
    ensures ok <==> StopsWithin(s, chunk, 0, 50)
    ensures !ok ==> |Matching(s.layer, chunk)| >= 50
    ensures pages <= 50
  {
    hide Tracks, Matching, PageAt, Honest, StopsWithin;
    ghost var all := Matching(s.layer, chunk);
    out, ambiguous := out0, ambiguous0;
    var offset: nat := 0;
    pages := 0;
    assert read + all[..0] == read;
    for page := 0 to MAX_PAGES
      invariant StopsWithin(s, chunk, 0, 50) <==> StopsWithin(s, chunk, offset, MAX_PAGES - page)
      invariant page <= offset <= |all| && pages == page && Tracks(strip, read + all[..offset], out, ambiguous)
    {
      ReadOn(s, chunk, read, offset);
      StopsNext(s, chunk, offset, MAX_PAGES - page);
      pages := pages + 1;
      var features := PageAt(s, chunk, offset);
      out, ambiguous := ReadPage(strip, features, chunk, read + all[..offset], out, ambiguous);
      if !s.more(chunk, offset) && |features| < BATCH {
        return true, out, ambiguous, pages;
      }
      offset := offset + if |features| > 0 then |features| else BATCH;
    }
    StopsAtNone(s, chunk, offset);
    ok := false;
  }

  /** All features read for these chunks of case numbers. */
  function ReadFor(fs: seq<Feature>, wanted: seq<string>, n: nat): seq<Feature>
    requires n <= |wanted|
    decreases n
  {
    if n == 0 then []
    else var from := Start(n); ReadFor(fs, wanted, from) + Matching(fs, wanted[from..n])
  }

  /** Where the chunk that ends at n begins. */
  function Start(n: nat): (from: nat)
    requires n > 0
    ensures from < n <= from + BATCH && from % BATCH == 0
  {
    (n - 1) / BATCH * BATCH
  }

  lemma {:induction false} ReadForCase(fs: seq<Feature>, wanted: seq<string>, n: nat, num: string)
    requires n <= |wanted| && NoDup(wanted)
    ensures OfCase(ReadFor(fs, wanted, n), num) == if num in wanted[..n] then OfCase(fs, num) else []
    decreases n
  {
    if n > 0 {
      var from := Start(n);
      ReadForCase(fs, wanted, from, num);
      OfCaseConcat(ReadFor(fs, wanted, from), Matching(fs, wanted[from..n]), num);
      OfCaseMatching(fs, wanted[from..n], num);
      OnlyOneChunk(wanted, from, n, num);
    }
  }

  lemma OnlyOneChunk(wanted: seq<string>, from: nat, n: nat, num: string)
    requires NoDup(wanted) && from <= n <= |wanted|
    ensures num in wanted[..n] <==> num in wanted[..from] || num in wanted[from..n]
    ensures !(num in wanted[..from] && num in wanted[from..n])
  {
    assert wanted[..n] == wanted[..from] + wanted[from..n];
    forall i, j | 0 <= i < from <= j < n ensures wanted[i] != wanted[j] { }
  }

  /** The answer: a case is in it exactly when it was asked for, the layer has it, and all its
      features, on whatever pages, agree on label and parcel. */
  ghost predicate SourceRows(strip: string -> string, fs: seq<Feature>, wanted: seq<string>, out: map<string, Feature>) {
    && (forall num :: num in out <==> num in wanted && OfCase(fs, num) != [] && Agreed(strip, OfCase(fs, num)))
    && (forall num :: num in out ==> var c := OfCase(fs, num); c != [] && out[num] == c[|c| - 1])
  }

  lemma SourceRowsAre(strip: string -> string, fs: seq<Feature>, wanted: seq<string>, out: map<string, Feature>, ambiguous: set<string>)
    requires NoDup(wanted) && Tracks(strip, ReadFor(fs, wanted, |wanted|), out, ambiguous)
    ensures SourceRows(strip, fs, wanted, out - ambiguous)
  {
    hide Agreed;
    assert wanted[..|wanted|] == wanted;
    forall num
      ensures num in out - ambiguous <==> num in wanted && OfCase(fs, num) != [] && Agreed(strip, OfCase(fs, num))
      ensures num in out - ambiguous ==> var c := OfCase(fs, num); c != [] && out[num] == c[|c| - 1]
    {
      ReadForCase(fs, wanted, |wanted|, num);
      assert Knows(strip, OfCase(ReadFor(fs, wanted, |wanted|), num), Kept(out, num), num in ambiguous);
    }
  }

  method FetchSourceRows(strip: string -> string, s: Server, wanted: seq<string>)
    returns (result: Option<map<string, Feature>>, asked: seq<seq<string>>, pages: nat)
    requires Honest(s) && NoDup(wanted)
    ensures result.Some? ==> SourceRows(strip, s.layer, wanted, result.value)
    ensures result.Some? <==>
      forall n :: 0 <= n < |wanted| && n % 100 == 0 ==> StopsWithin(s, wanted[n..StopAfter(n, |wanted|)], 0, 50)
    ensures result == None ==> |s.layer| >= 50
    ensures (forall n :: 0 <= n < |asked| ==> |asked[n]| <= 100) && pages <= 50 * |asked|
  {
    hide *;
    var out: map<string, Feature>, ambiguous: set<string> := map[], {};
    NothingRead(strip);
    NoChunksYet(s.layer, wanted);
    var i: nat := 0;
    asked, pages := [], 0;
    while i < |wanted|
      invariant i <= |wanted| && AtStop(i, |wanted|)
      invariant (forall n :: 0 <= n < |asked| ==> |asked[n]| <= 100) && pages <= 50 * |asked|
      invariant forall n :: 0 <= n < i && n % 100 == 0 ==> StopsWithin(s, wanted[n..StopAfter(n, |wanted|)], 0, 50)
      invariant Tracks(strip, ReadFor(s.layer, wanted, i), out, ambiguous)
    {
      NextStop(s.layer, wanted, i);
      var j: nat := StopAfter(i, |wanted|);
      var ok, more;
      StopSize(i, |wanted|);
      asked := asked + [wanted[i..j]];
      ok, out, ambiguous, more := ReadChunk(strip, s, wanted[i..j], ReadFor(s.layer, wanted, i), out, ambiguous);
      pages := pages + more;
      if !ok {
        MatchingSize(s.layer, wanted[i..j]);
        return None, asked, pages;
      }
      i := j;
    }
    SourceRowsAre(strip, s.layer, wanted, out, ambiguous);
    return Some(out - ambiguous), asked, pages;
  }

  /** range(0, n, _BATCH): where a chunk may begin, and where it ends. */
  predicate AtStop(i: nat, n: nat) { i % BATCH == 0 || i == n }

  function StopAfter(i: nat, n: nat): (j: nat)
    requires i <= n
    ensures i <= j <= n
  {
    if i + BATCH < n then i + BATCH else n
  }

  lemma NextStop(fs: seq<Feature>, wanted: seq<string>, i: nat)
    requires i < |wanted| && AtStop(i, |wanted|)
    ensures var j := StopAfter(i, |wanted|);
      && i < j <= |wanted| && AtStop(j, |wanted|)
      && ReadFor(fs, wanted, j) == ReadFor(fs, wanted, i) + Matching(fs, wanted[i..j])
  {
    assert Start(StopAfter(i, |wanted|)) == i;
  }

  lemma StopSize(i: nat, n: nat)
    requires i < n && AtStop(i, n)
    ensures i % 100 == 0 && forall k :: i < k < StopAfter(i, n) ==> k % 100 != 0
    ensures i < StopAfter(i, n) <= n && StopAfter(i, n) - i <= 100
  {
  }

  lemma NoChunksYet(fs: seq<Feature>, wanted: seq<string>)
    ensures ReadFor(fs, wanted, 0) == [] && AtStop(0, |wanted|)
  {
  }

  lemma NothingRead(strip: string -> string)
    ensures Tracks(strip, [], map[], {})
  {
    forall num ensures Knows(strip, OfCase([], num), Kept(map[], num), num in {}) {
      assert OfCase([], num) == [];
    }
  }

  lemma {:induction false} MatchingSize(fs: seq<Feature>, chunk: seq<string>)
    ensures |Matching(fs, chunk)| <= |fs|
  {
    if fs != [] { MatchingSize(fs[..|fs| - 1], chunk); }
  }

  // ---------- the party name ----------

  /** What a row's party_name becomes: party is the stored name, owner the accepted name. */
  function PartyAfter(party: Option<string>, isLabel: bool, wantsOwner: bool, owner: Option<string>): Option<string> {
    var named := if wantsOwner && owner.Some? then owner else party;
    if named == party && isLabel then None else named
  }

  /** A name that is neither the old label nor blank is never touched, a blank one is only ever
      filled with an accepted owner, and a label always goes: even an owner spelled exactly
      like the label is cleared rather than kept. */
  lemma PartySafe(strip: string -> string, party: Option<string>, source: Feature, sameParcel: bool, decided: bool, owner: Option<string>)
    ensures var unnamed := Text(strip, party) == "";
      var isLabel := !unnamed && party == Some(Label(strip, source));
      var wants := (isLabel || unnamed) && sameParcel && !decided;
      var t := PartyAfter(party, isLabel, wants, owner);
      && (!unnamed && !isLabel ==> t == party)
      && (unnamed ==> t == party || (sameParcel && !decided && t == owner && owner.Some?))
      && (isLabel ==> t != party)
      && (isLabel ==> (t == None <==> owner == None || !sameParcel || decided || owner == party))
  {
  }

  /** An accepted owner of a waiting row is stored exactly unless it is spelled like the label. */
  lemma OwnerStoredIff(strip: string -> string, party: Option<string>, source: Feature, owner: string)
    requires Text(strip, party) == "" || party == Some(Label(strip, source))
    ensures var isLabel := Text(strip, party) != "" && party == Some(Label(strip, source));
      PartyAfter(party, isLabel, true, Some(owner)) == Some(owner)
      <==> Text(strip, party) == "" || owner != Label(strip, source)
  {
  }

  /** Such a row: a case without an address, labelled with its type, that type being the owner. */
  lemma OwnerLikeLabel() returns (strip: string -> string, source: Feature)
    ensures Text(strip, Some("NUISANCE")) != "" && Label(strip, source) == "NUISANCE"
    ensures PartyAfter(Some("NUISANCE"), true, true, Some("NUISANCE")) == None
  {
    strip, source := s => s, Feature("1", Some("NUISANCE"), None, None);
    assert |"NUISANCE"| == 8;
  }

  // ---------- chunks of parcels ----------

  /** A planned row; wants holds only with a parcel to look up. */
  datatype Plan = Plan(id: nat, parcel: Option<string>, wants: bool)

  /** The parcel a plan waits for. */
  function Needs(p: Plan): Option<string> { if p.wants then p.parcel else None }

  function Needed(plans: seq<Plan>): set<string> { set p | p in plans && Needs(p).Some? :: Needs(p).value }

  /** by_chunk[n]: the plans of the n-th chunk; a plan that needs no lookup goes first. */
  function ChunkOf(parcels: seq<string>, p: Plan): nat {
    if Needs(p).Some? && Needs(p).value in parcels then IndexOf(parcels, Needs(p).value) / OWNER_CHUNK else 0
  }

  function IndexOf(s: seq<string>, x: string): (i: nat)
    requires x in s
    ensures i < |s| && s[i] == x
  {
    if s[0] == x then 0 else 1 + IndexOf(s[1..], x)
  }

  function InChunk(parcels: seq<string>, plans: seq<Plan>, n: nat): seq<Plan> {
    if plans == [] then []
    else InChunk(parcels, plans[..|plans| - 1], n)
         + var p := plans[|plans| - 1]; if ChunkOf(parcels, p) == n then [p] else []
  }

  function Chunks(parcels: seq<string>): nat { if parcels == [] then 1 else (|parcels| + OWNER_CHUNK - 1) / OWNER_CHUNK }

  function Piece(parcels: seq<string>, n: nat): seq<string>
    requires n * OWNER_CHUNK <= |parcels|
  {
    if (n + 1) * OWNER_CHUNK <= |parcels| then parcels[n * OWNER_CHUNK..(n + 1) * OWNER_CHUNK] else parcels[n * OWNER_CHUNK..]
  }

  /** The plans of the first n chunks, in the order they are written. */
  function Written(parcels: seq<string>, plans: seq<Plan>, n: nat): seq<Plan> {
    if n == 0 then [] else Written(parcels, plans, n - 1) + InChunk(parcels, plans, n - 1)
  }

  /** How often a plan occurs. */
  function Times(plans: seq<Plan>, p: Plan): nat { multiset(plans)[p] }

  lemma {:induction false} InChunkSplit(parcels: seq<string>, plans: seq<Plan>, n: nat, p: Plan)
    ensures p in InChunk(parcels, plans, n) <==> p in plans && ChunkOf(parcels, p) == n
    ensures Times(InChunk(parcels, plans, n), p) == if ChunkOf(parcels, p) == n then Times(plans, p) else 0
  {
    if plans != [] {
      var front, last := plans[..|plans| - 1], plans[|plans| - 1];
      InChunkSplit(parcels, front, n, p);
      assert plans == front + [last];
    }
  }

  lemma {:induction false} WrittenCount(parcels: seq<string>, plans: seq<Plan>, n: nat, p: Plan)
    ensures Times(Written(parcels, plans, n), p) == if ChunkOf(parcels, p) < n then Times(plans, p) else 0
  {
    hide Times, ChunkOf, InChunk;
    if n == 0 {
      TimesNone(p);
    } else {
      var before, mine := Written(parcels, plans, n - 1), InChunk(parcels, plans, n - 1);
      assert Written(parcels, plans, n) == before + mine;
      hide Written;
      WrittenCount(parcels, plans, n - 1, p);
      InChunkSplit(parcels, plans, n - 1, p);
      TimesAdd(before, mine, p);
    }
  }

  lemma NextWritten(parcels: seq<string>, plans: seq<Plan>, n: nat)
    ensures Written(parcels, plans, n + 1) == Written(parcels, plans, n) + InChunk(parcels, plans, n)
  {
  }

  lemma TimesNone(p: Plan)
    ensures Times([], p) == 0
  {
  }

  lemma TimesAdd(a: seq<Plan>, b: seq<Plan>, p: Plan)
    ensures Times(a + b, p) == Times(a, p) + Times(b, p)
  {
    assert multiset(a + b) == multiset(a) + multiset(b);
  }

  lemma ChunkInRange(parcels: seq<string>, p: Plan)
    ensures ChunkOf(parcels, p) < Chunks(parcels)
    ensures Needs(p).Some? && Needs(p).value in parcels ==>
      var n := ChunkOf(parcels, p); n * OWNER_CHUNK <= |parcels| && Needs(p).value in Piece(parcels, n)
  {
    if Needs(p).Some? && Needs(p).value in parcels {
      var i := IndexOf(parcels, Needs(p).value);
      var n := i / OWNER_CHUNK;
      assert n * OWNER_CHUNK <= i < (n + 1) * OWNER_CHUNK;
      var piece := Piece(parcels, n);
      assert piece[i - n * OWNER_CHUNK] == parcels[i];
    }
  }

  /** Every plan is written exactly once. */
  lemma EveryPlanOnce(parcels: seq<string>, plans: seq<Plan>)
    ensures multiset(Written(parcels, plans, Chunks(parcels))) == multiset(plans)
  {
    forall p: Plan ensures multiset(Written(parcels, plans, Chunks(parcels)))[p] == multiset(plans)[p] {
      assert Times(Written(parcels, plans, Chunks(parcels)), p) == multiset(Written(parcels, plans, Chunks(parcels)))[p];
      WrittenCount(parcels, plans, Chunks(parcels), p);
      ChunkInRange(parcels, p);
    }
  }

  lemma PieceNext(parcels: seq<string>, n: nat)
    requires n * OWNER_CHUNK <= |parcels|
    ensures var upTo := n * OWNER_CHUNK + |Piece(parcels, n)|;
      && upTo <= |parcels| && parcels[..upTo] == parcels[..n * OWNER_CHUNK] + Piece(parcels, n)
      && (upTo == (n + 1) * OWNER_CHUNK || upTo == |parcels|)
  {
  }

  /** run's chunk loop: looked lists the parcels in the order they were looked up, written the
      plans with the parcels fetched just before they were written. */
  method WriteChunks(plans: seq<Plan>, parcels: seq<string>, owners: bool)
    returns (looked: seq<string>, written: seq<Plan>, ghost fetched: seq<seq<string>>)
    requires NoDup(parcels) && Elems(parcels) == set p | p in plans && p.wants && p.parcel.Some? :: p.parcel.value
    ensures looked == if owners then parcels else []
    ensures multiset(written) == multiset(plans)
    ensures |fetched| == |written|
    ensures owners ==> forall k :: 0 <= k < |written| && written[k].wants && written[k].parcel.Some? ==>
      written[k].parcel.value in fetched[k]
    ensures forall k :: 0 <= k < |fetched| ==> |fetched[k]| <= 20
  {
    hide *;
    looked, written, fetched := [], [], [];
    NeededIs(plans);
    var n := 0;
    ChunksStart(parcels, plans);
    while n < Chunks(parcels)
      invariant n <= Chunks(parcels) && written == Written(parcels, plans, n) && |fetched| == |written|
      invariant looked == if owners then LookedUp(parcels, n) else []
      invariant owners ==> AllFetched(written, fetched)
      invariant forall k :: 0 <= k < |fetched| ==> |fetched[k]| <= 20
      decreases Chunks(parcels) - n
    {
      ChunkFits(parcels, n);
      var chunk := Piece(parcels, n);
      PieceSize(parcels, n);
      var found := if owners && chunk != [] then chunk else [];
      var mine := InChunk(parcels, plans, n);
      MineFetched(parcels, plans, n);
      NextWritten(parcels, plans, n);
      if owners { FetchedGrows(written, fetched, mine, found); }
      looked := looked + found;
      fetched := fetched + seq(|mine|, k => found);
      written := written + mine;
      n := n + 1;
    }
    ChunksEnd(parcels, plans);
    if owners { FetchedMeans(written, fetched); }
  }

  lemma NeededIs(plans: seq<Plan>)
    ensures Needed(plans) == set p | p in plans && p.wants && p.parcel.Some? :: p.parcel.value
  {
  }

  lemma PieceSize(parcels: seq<string>, n: nat)
    requires n * OWNER_CHUNK <= |parcels|
    ensures |Piece(parcels, n)| <= 20
  {
  }

  /** Each plan that waits for an owner is written with its parcel freshly fetched. */
  ghost predicate AllFetched(written: seq<Plan>, fetched: seq<seq<string>>) {
    && |fetched| == |written|
    && forall k :: 0 <= k < |written| && Needs(written[k]).Some? ==> Needs(written[k]).value in fetched[k]
  }

  lemma FetchedMeans(written: seq<Plan>, fetched: seq<seq<string>>)
    requires AllFetched(written, fetched)
    ensures |fetched| == |written|
    ensures forall k :: 0 <= k < |written| && written[k].wants && written[k].parcel.Some? ==> written[k].parcel.value in fetched[k]
  {
  }

  lemma FetchedGrows(written: seq<Plan>, fetched: seq<seq<string>>, mine: seq<Plan>, found: seq<string>)
    requires AllFetched(written, fetched)
    requires forall p :: p in mine && Needs(p).Some? ==> Needs(p).value in found
    ensures AllFetched(written + mine, fetched + seq(|mine|, k => found))
  {
  }

  /** The parcels of the first n chunks. */
  function LookedUp(parcels: seq<string>, n: nat): seq<string> {
    if n * OWNER_CHUNK <= |parcels| then parcels[..n * OWNER_CHUNK] else parcels
  }

  lemma ChunkFits(parcels: seq<string>, n: nat)
    requires n < Chunks(parcels)
    ensures n * OWNER_CHUNK <= |parcels|
    ensures LookedUp(parcels, n + 1) == LookedUp(parcels, n) + Piece(parcels, n)
  {
    PieceNext(parcels, n);
  }

  lemma MineFetched(parcels: seq<string>, plans: seq<Plan>, n: nat)
    requires Elems(parcels) == Needed(plans) && n * OWNER_CHUNK <= |parcels|
    ensures forall p :: p in InChunk(parcels, plans, n) && Needs(p).Some? ==> Needs(p).value in Piece(parcels, n)
  {
    forall p | p in InChunk(parcels, plans, n) && Needs(p).Some? ensures Needs(p).value in Piece(parcels, n) {
      InChunkSplit(parcels, plans, n, p);
      assert Needs(p).value in Elems(parcels);
      ChunkInRange(parcels, p);
    }
  }

  lemma ChunksStart(parcels: seq<string>, plans: seq<Plan>)
    ensures Written(parcels, plans, 0) == [] && LookedUp(parcels, 0) == [] && AllFetched([], []) && 0 <= Chunks(parcels)
  {
  }

  lemma ChunksEnd(parcels: seq<string>, plans: seq<Plan>)
    ensures multiset(Written(parcels, plans, Chunks(parcels))) == multiset(plans)
    ensures LookedUp(parcels, Chunks(parcels)) == parcels
  {
    EveryPlanOnce(parcels, plans);
  }
}
