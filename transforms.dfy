/** The record transforms of the admin console and of the contact form: each
    builds a new document from the current one with a spread, `filter`, `map`,
    `slice` or `splice`. */
module Transforms {
  import opened Options
  import opened Document

  /** At most this many snapshots are kept. */
  const SnapshotCap: nat := 10

  function Min(a: int, b: int): int {
    if a <= b then a else b
  }

  function Reverse<T>(s: seq<T>): (r: seq<T>)
    ensures |r| == |s|
    ensures forall i :: 0 <= i < |s| ==> r[i] == s[|s| - 1 - i]
  {
    if s == [] then [] else Reverse(s[1..]) + [s[0]]
  }

  // ----- Snapshots -----

  /** `[s, ...list].slice(0, 10)`: the new entry first, then as many of the old
      entries, in their order, as still fit under the cap. */
  function PushCapped(list: seq<Snapshot>, s: Snapshot): (r: seq<Snapshot>)
    ensures |r| == Min(|list| + 1, SnapshotCap)
    ensures r[0] == s
    ensures r[1..] == list[..|r| - 1]
  {
    ([s] + list)[..Min(|list| + 1, SnapshotCap)]
  }

  /** The label prompt was answered with a non-empty string. */
  predicate Labelled(answer: Option<string>) {
    answer.Some? && answer.value != ""
  }

  /** createSnapshot: `answer` is what the label prompt returned (`None` when it
      was cancelled); `id` and `date` are the clock readings. The copy of the
      document stored in the snapshot is the document as it was, including its
      own snapshot list. */
  function CreateSnapshot(d: Doc, answer: Option<string>, id: string, date: string): (r: Doc)
    ensures !Labelled(answer) ==> r == d
    ensures Labelled(answer) ==>
      && r.snapshots.Some?
      && |r.snapshots.value| == Min(|d.snapshots.GetOr([])| + 1, SnapshotCap)
      && r.snapshots.value[0] == Snapshot(id, date, answer.value, d)
      && r.snapshots.value[1..] == d.snapshots.GetOr([])[..|r.snapshots.value| - 1]
      && r.(snapshots := d.snapshots) == d
  {
    if Labelled(answer) then
      d.(snapshots := Some(PushCapped(d.snapshots.GetOr([]), Snapshot(id, date, answer.value, d))))
    else
      d
  }

  /** A snapshot taken leaves at most ten in the list, however many it held
      before (an imported document may hold more). */
  lemma SnapshotBound(d: Doc, answer: Option<string>, id: string, date: string)
    ensures Labelled(answer) ==> |CreateSnapshot(d, answer, id, date).snapshots.GetOr([])| <= SnapshotCap
  {
  }

  /** A snapshot's copy still holds the snapshot list of its time, so taking a
      second snapshot nests the first one inside it. */
  lemma SnapshotsNest(d: Doc, a1: string, id1: string, date1: string, a2: string, id2: string, date2: string)
    requires a1 != "" && a2 != ""
    ensures var d1 := CreateSnapshot(d, Some(a1), id1, date1);
            var d2 := CreateSnapshot(d1, Some(a2), id2, date2);
            d2.snapshots.value[0].data.snapshots.value[0] == Snapshot(id1, date1, a1, d)
  {
    var d1 := CreateSnapshot(d, Some(a1), id1, date1);
    assert d1.snapshots.value[0] == Snapshot(id1, date1, a1, d);
  }

  /** Taking the snapshots `news` one after the other, starting from `list`. */
  function PushAll(list: seq<Snapshot>, news: seq<Snapshot>): seq<Snapshot>
    decreases |news|
  {
    if news == [] then list else PushAll(PushCapped(list, news[0]), news[1..])
  }

  /** After a run of snapshots the list holds the newest ones, newest first,
      followed by the oldest survivors of the previous list, ten at most. */
  lemma {:induction false} PushAllKeepsNewest(list: seq<Snapshot>, news: seq<Snapshot>)
    requires |list| <= SnapshotCap
    ensures PushAll(list, news) == (Reverse(news) + list)[..Min(|news| + |list|, SnapshotCap)]
    decreases |news|
  {
    if news != [] {
      var rest := news[1..];
      var l1 := PushCapped(list, news[0]);
      PushAllKeepsNewest(l1, rest);
      var a := Reverse(rest);
      var b := [news[0]] + list;
      var k := Min(|news| + |list|, SnapshotCap);
      assert Reverse(news) == a + [news[0]];
      assert a + b == Reverse(news) + list;
      assert l1 == b[..|l1|];
      forall i | 0 <= i < k
        ensures (a + l1)[i] == (a + b)[i]
      {
      }
    }
  }

  /** Ten or more snapshots in a row from an empty history leave exactly the
      last ten, most recent first. */
  lemma LastTenSnapshots(news: seq<Snapshot>)
    requires |news| >= SnapshotCap
    ensures |PushAll([], news)| == SnapshotCap
    ensures forall i :: 0 <= i < SnapshotCap ==> PushAll([], news)[i] == news[|news| - 1 - i]
  {
    PushAllKeepsNewest([], news);
  }

  /** restoreSnapshot: `{ ...snapshot.data, snapshots: data.snapshots }` when the
      confirmation is accepted. No merge with the defaults takes place. */
  function Restore(d: Doc, snap: Snapshot, confirmed: bool): (r: Doc)
    ensures !confirmed ==> r == d
    ensures confirmed ==> r.snapshots == d.snapshots && r.(snapshots := snap.data.snapshots) == snap.data
  {
    if confirmed then snap.data.(snapshots := d.snapshots) else d
  }

  /** Restoring a snapshot straight after taking it, with the document replaced
      meanwhile by `later` only through whole-value updates, brings back the
      content of the time it was taken and keeps the present history. */
  lemma RestoreAfterCreate(d: Doc, name: string, id: string, date: string, later: Doc)
    requires name != ""
    ensures var s := CreateSnapshot(d, Some(name), id, date).snapshots.value[0];
            Restore(later, s, true) == d.(snapshots := later.snapshots)
  {
  }

  /** Reset Default: `{ ...INITIAL_DATA, snapshots: data.snapshots }`. */
  function Reset(d: Doc, confirmed: bool): (r: Doc)
    ensures !confirmed ==> r == d
    ensures confirmed ==> r.snapshots == d.snapshots && r.(snapshots := Initial.snapshots) == Initial
  {
    if confirmed then Initial.(snapshots := d.snapshots) else d
  }

  // ----- Removing entries by id -----

  /** `s.filter(x => key(x) !== id)`. */
  function RemoveId<T(!new)>(s: seq<T>, key: T -> string, id: string): (r: seq<T>)
    ensures forall x {:trigger x in r} {:trigger x in s} :: x in r <==> x in s && key(x) != id
    ensures forall x {:trigger multiset(r)[x]} {:trigger multiset(s)[x]} ::
      multiset(r)[x] == if key(x) == id then 0 else multiset(s)[x]
  {
    if s == [] then []
    else
      assert s == [s[0]] + s[1..];
      if key(s[0]) == id then RemoveId(s[1..], key, id) else [s[0]] + RemoveId(s[1..], key, id)
  }

  /** The filter works piece by piece, so the entries kept stay in their relative
      order. */
  lemma {:induction false} RemoveIdAppend<T(!new)>(a: seq<T>, b: seq<T>, key: T -> string, id: string)
    ensures RemoveId(a + b, key, id) == RemoveId(a, key, id) + RemoveId(b, key, id)
  {
    if a == [] {
      assert a + b == b;
    } else {
      assert (a + b)[0] == a[0];
      assert (a + b)[1..] == a[1..] + b;
      assert RemoveId(a + b, key, id) == if key(a[0]) == id then RemoveId(a[1..] + b, key, id)
                                          else [a[0]] + RemoveId(a[1..] + b, key, id);
      RemoveIdAppend(a[1..], b, key, id);
      if key(a[0]) != id {
        var ra, rb := RemoveId(a[1..], key, id), RemoveId(b, key, id);
        assert [a[0]] + (ra + rb) == ([a[0]] + ra) + rb;
      }
    }
  }

  /** Removing an id no entry has changes nothing. */
  lemma {:induction false} RemoveAbsentId<T(!new)>(s: seq<T>, key: T -> string, id: string)
    requires forall i :: 0 <= i < |s| ==> key(s[i]) != id
    ensures RemoveId(s, key, id) == s
  {
    if s != [] {
      RemoveAbsentId(s[1..], key, id);
    }
  }

  predicate DistinctKeys<T>(s: seq<T>, key: T -> string) {
    forall i, j :: 0 <= i < j < |s| ==> key(s[i]) != key(s[j])
  }

  /** Filtering out the id of the middle entry, when neither side has it. */
  lemma RemoveMiddle<T(!new)>(pre: seq<T>, x: T, post: seq<T>, key: T -> string)
    requires RemoveId(pre, key, key(x)) == pre
    requires RemoveId(post, key, key(x)) == post
    ensures RemoveId(pre + [x] + post, key, key(x)) == pre + post
  {
    var id := key(x);
    assert pre + [x] + post == pre + ([x] + post);
    RemoveIdAppend(pre, [x] + post, key, id);
    assert ([x] + post)[0] == x && ([x] + post)[1..] == post;
  }

  /** With distinct ids, no entry other than `k` has entry `k`'s id. */
  lemma OthersKeep<T(!new)>(s: seq<T>, key: T -> string, k: nat)
    requires DistinctKeys(s, key)
    requires k < |s|
    ensures RemoveId(s[..k], key, key(s[k])) == s[..k]
    ensures RemoveId(s[k + 1..], key, key(s[k])) == s[k + 1..]
  {
    var pre, post := s[..k], s[k + 1..];
    forall i | 0 <= i < |pre|
      ensures key(pre[i]) != key(s[k])
    {
      assert pre[i] == s[i];
    }
    RemoveAbsentId(pre, key, key(s[k]));
    forall i | 0 <= i < |post|
      ensures key(post[i]) != key(s[k])
    {
      assert post[i] == s[k + 1 + i];
    }
    RemoveAbsentId(post, key, key(s[k]));
  }

  /** With distinct ids, deleting the id of entry `k` removes exactly that entry
      and leaves the others in their original order. */
  lemma RemoveDistinctId<T(!new)>(s: seq<T>, key: T -> string, k: nat)
    requires DistinctKeys(s, key)
    requires k < |s|
    ensures RemoveId(s, key, key(s[k])) == s[..k] + s[k + 1..]
  {
    OthersKeep(s, key, k);
    RemoveMiddle(s[..k], s[k], s[k + 1..], key);
    AroundIndex(s, k);
  }

  lemma AroundIndex<T>(s: seq<T>, k: nat)
    requires k < |s|
    ensures s == s[..k] + [s[k]] + s[k + 1..]
  {
    assert s == s[..k] + s[k..];
    assert s[k..] == [s[k]] + s[k + 1..];
  }

  function InquiryKey(i: Inquiry): string {
    i.id
  }

  function SnapshotKey(s: Snapshot): string {
    s.id
  }

  /** deleteInquiry, once confirmed: only the inquiries change, by the filter on
      the id. The delete buttons are drawn from the list, so it is present. */
  function DeleteInquiry(d: Doc, id: string, confirmed: bool): (r: Doc)
    requires d.inquiries.Some?
    ensures !confirmed ==> r == d
    ensures confirmed ==> r.inquiries == Some(RemoveId(d.inquiries.value, InquiryKey, id))
    ensures r.(inquiries := d.inquiries) == d
  {
    if confirmed then d.(inquiries := Some(RemoveId(d.inquiries.value, InquiryKey, id))) else d
  }

  /** clearAllInquiries, once confirmed. */
  function ClearInquiries(d: Doc, confirmed: bool): (r: Doc)
    ensures confirmed ==> r.inquiries == Some([])
    ensures !confirmed ==> r == d
    ensures r.(inquiries := d.inquiries) == d
  {
    if confirmed then d.(inquiries := Some([])) else d
  }

  /** The snapshot delete button: the same filter on the snapshot list, with no
      confirmation. */
  function DeleteSnapshot(d: Doc, id: string): (r: Doc)
    requires d.snapshots.Some?
    ensures r.snapshots == Some(RemoveId(d.snapshots.value, SnapshotKey, id))
    ensures r.(snapshots := d.snapshots) == d
  {
    d.(snapshots := Some(RemoveId(d.snapshots.value, SnapshotKey, id)))
  }

  // ----- Contact form -----

  /** handleContactSubmit's update: `[newInquiry, ...(inquiries || [])]`. */
  function AddInquiry(d: Doc, inq: Inquiry): (r: Doc)
    ensures r.inquiries.Some? && |r.inquiries.value| == |d.inquiries.GetOr([])| + 1
    ensures r.inquiries.value[0] == inq
    ensures r.inquiries.value[1..] == d.inquiries.GetOr([])
    ensures r.(inquiries := d.inquiries) == d
  {
    d.(inquiries := Some([inq] + d.inquiries.GetOr([])))
  }

  /** Submitting the forms `inqs` one after the other. */
  function AddAll(d: Doc, inqs: seq<Inquiry>): Doc
    decreases |inqs|
  {
    if inqs == [] then d else AddAll(AddInquiry(d, inqs[0]), inqs[1..])
  }

  /** After a run of submissions the inquiries are the submitted ones, newest
      first, ahead of the earlier ones; nothing else changes. */
  lemma {:induction false} AddAllPrepends(d: Doc, inqs: seq<Inquiry>)
    ensures inqs != [] ==> AddAll(d, inqs).inquiries.Some?
    ensures AddAll(d, inqs).inquiries.GetOr([]) == Reverse(inqs) + d.inquiries.GetOr([])
    ensures AddAll(d, inqs).(inquiries := d.inquiries) == d
    decreases |inqs|
  {
    if inqs != [] {
      var d1 := AddInquiry(d, inqs[0]);
      assert AddAll(d, inqs) == AddAll(d1, inqs[1..]);
      AddAllPrepends(d1, inqs[1..]);
      var before := d.inquiries.GetOr([]);
      assert d1.inquiries.GetOr([]) == [inqs[0]] + before;
      assert Reverse(inqs) + before == Reverse(inqs[1..]) + ([inqs[0]] + before);
    }
  }

  /** N submissions with distinct ids on a document without inquiries, then the
      deletion of the k-th newest: the other N - 1 stay, in submission order
      (newest first). */
  lemma SubmitThenDelete(d: Doc, inqs: seq<Inquiry>, k: nat)
    requires d.inquiries.GetOr([]) == []
    requires DistinctKeys(inqs, InquiryKey)
    requires k < |inqs|
    ensures var after := AddAll(d, inqs);
            var list := Reverse(inqs);
            after.inquiries.Some? &&
            DeleteInquiry(after, list[k].id, true).inquiries == Some(list[..k] + list[k + 1..])
  {
    AddAllPrepends(d, inqs);
    var list := Reverse(inqs);
    assert list + [] == list;
    forall i, j | 0 <= i < j < |list|
      ensures InquiryKey(list[i]) != InquiryKey(list[j])
    {
      assert list[i] == inqs[|inqs| - 1 - i] && list[j] == inqs[|inqs| - 1 - j];
    }
    RemoveDistinctId(list, InquiryKey, k);
  }

  // ----- Field edits -----

  /** handleGeneralChange's update of `translations[lang][section][key]`,
      creating the section when it is missing. */
  function SetText(t: Translations, lang: Language, section: string, key: string, val: string): (r: Translations)
    requires lang in t
    ensures r.Keys == t.Keys
    ensures forall l :: l in t && l != lang ==> r[l] == t[l]
    ensures r[lang].Keys == t[lang].Keys + {section}
    ensures forall s :: s in t[lang] && s != section ==> r[lang][s] == t[lang][s]
    ensures key in r[lang][section] && r[lang][section][key] == Text(val)
    ensures section in t[lang] ==> r[lang][section].Keys == t[lang][section].Keys + {key}
    ensures section in t[lang] ==>
      forall k :: k in t[lang][section] && k != key ==> r[lang][section][k] == t[lang][section][k]
    ensures section !in t[lang] ==> r[lang][section].Keys == {key}
  {
    var table := t[lang];
    var entries := if section in table then table[section] else map[];
    t[lang := table[section := entries[key := Text(val)]]]
  }

  /** `{ ...m, [key]: val }` for the socials and contact-info objects (a missing
      object spreads as `{}`). */
  function SetEntry(m: Option<map<string, string>>, key: string, val: string): (r: map<string, string>)
    ensures r.Keys == m.GetOr(map[]).Keys + {key}
    ensures r[key] == val
    ensures forall k :: k in m.GetOr(map[]) && k != key ==> r[k] == m.GetOr(map[])[k]
  {
    m.GetOr(map[])[key := val]
  }

  /** handleImageUpload's `projects.map(p => p.id === projectId ? { ...p, image } : p)`. */
  function SetProjectImage(ps: seq<Project>, projectId: string, image: string): (r: seq<Project>)
    ensures |r| == |ps|
    ensures forall i :: 0 <= i < |ps| && ps[i].id == projectId ==> r[i] == ps[i].(image := Some(image))
    ensures forall i :: 0 <= i < |ps| && ps[i].id != projectId ==> r[i] == ps[i]
  {
    seq(|ps|, i requires 0 <= i < |ps| => if ps[i].id == projectId then ps[i].(image := Some(image)) else ps[i])
  }

  /** `copy.splice(i, 1)`: the entry at `i` leaves, the others keep their order. */
  function RemoveAt<T>(s: seq<T>, i: nat): (r: seq<T>)
    requires i < |s|
    ensures |r| == |s| - 1
    ensures forall j :: 0 <= j < i ==> r[j] == s[j]
    ensures forall j :: i <= j < |r| ==> r[j] == s[j + 1]
    ensures multiset(r) + multiset{s[i]} == multiset(s)
  {
    assert s == s[..i] + [s[i]] + s[i + 1..];
    s[..i] + s[i + 1..]
  }

  /** The entries the Add buttons append. */
  function NewSkill(id: string): Skill {
    Skill(id, "New", None, ["Skill 1"])
  }

  function NewProject(id: string): Project {
    Project(id, "Dự án mới", "Mô tả dự án...", [], "Web App", None)
  }

  function NewTestimonial(id: string): Testimonial {
    Testimonial(id, "Tên đối tác", "Nội dung đánh giá...", "CEO")
  }
}
