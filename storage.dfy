/** The application's copy of the site document and the two stores it is kept
    in: the primary key-value store (an IndexedDB object store, modelled as a
    map from key to document) and the legacy local store (a map from key to JSON
    text). Store failures are boolean parameters: `readOk` says that opening the
    database and reading the key succeeded, `writeOk` that the put succeeded,
    `mirrorOk` that the local-store write succeeded. */
module Storage {
  import opened Options
  import opened Document
  import opened Transforms

  /** Key of the document in the primary store. */
  const DocKey: string := "portfolio_data"

  /** Key of the JSON copy in the legacy local store. */
  const LegacyKey: string := "phu_portfolio_data_v3"

  /** The empty string is falsy, so `if (legacy)` skips it like a missing key. */
  predicate HasLegacyText(legacy: map<string, JsonText>) {
    LegacyKey in legacy && legacy[LegacyKey] != Unparseable("")
  }

  /** The document loadData has built before it counts the visit: the stored
      document merged over the defaults, else the legacy copy merged over the
      defaults, else the defaults. `None` when the legacy text does not parse:
      the exception ends the load. */
  function Loaded(primary: map<string, Doc>, legacy: map<string, JsonText>): (r: Option<Doc>)
    ensures r.Some? ==> Complete(r.value)
    ensures DocKey in primary ==> r == Some(Merge(primary[DocKey]))
    ensures DocKey !in primary && !HasLegacyText(legacy) ==> r == Some(Initial)
    ensures DocKey !in primary && HasLegacyText(legacy) ==>
      && (r.Some? <==> Parse(legacy[LegacyKey]).Some?)
      && (r.Some? ==> r.value == Merge(Parse(legacy[LegacyKey]).value))
  {
    if DocKey in primary then
      Some(Merge(primary[DocKey]))
    else if HasLegacyText(legacy) then
      match Parse(legacy[LegacyKey])
      case Some(parsed) => Some(Merge(parsed))
      case None => None
    else
      Some(Initial)
  }

  /** A document just saved is what the next load starts from (merged over the
      defaults, which changes nothing once it carries every key). */
  lemma ReloadAfterSave(primary: map<string, Doc>, legacy: map<string, JsonText>, d: Doc)
    ensures Loaded(primary[DocKey := d], legacy) == Some(Merge(d))
    ensures Complete(d) ==> Loaded(primary[DocKey := d], legacy) == Some(d)
  {
    MergeComplete(d);
  }

  /** With nothing in the primary store, a legacy JSON copy is migrated. */
  lemma LegacyMigration(primary: map<string, Doc>, legacy: map<string, JsonText>, d: Doc)
    requires DocKey !in primary
    requires LegacyKey in legacy && legacy[LegacyKey] == Stringify(d)
    ensures Loaded(primary, legacy) == Some(Merge(d))
  {
  }

  /** The primary store after `n` page loads whose reads and writes succeed. */
  function AfterLoads(primary: map<string, Doc>, legacy: map<string, JsonText>, n: nat): (r: map<string, Doc>)
    requires Loaded(primary, legacy).Some?
    ensures Loaded(r, legacy).Some?
    decreases n
  {
    if n == 0 then primary
    else AfterLoads(primary[DocKey := CountVisit(Loaded(primary, legacy).value)], legacy, n - 1)
  }

  /** There is no session marker: every load adds one to the stored count. */
  lemma {:induction false} VisitCountPerLoad(primary: map<string, Doc>, legacy: map<string, JsonText>, n: nat)
    requires Loaded(primary, legacy).Some?
    ensures CountOrZero(Loaded(AfterLoads(primary, legacy, n), legacy).value.visitCount)
         == CountOrZero(Loaded(primary, legacy).value.visitCount) + n
    decreases n
  {
    if n > 0 {
      var d1 := CountVisit(Loaded(primary, legacy).value);
      var p1 := primary[DocKey := d1];
      ReloadAfterSave(primary, legacy, d1);
      VisitCountPerLoad(p1, legacy, n - 1);
    }
  }

  class Site {
    /** The primary store. */
    var primary: map<string, Doc>
    /** The legacy local store. */
    var legacy: map<string, JsonText>
    /** The document the page renders. */
    var siteData: Doc
    var loaded: bool

    /** The page starts on INITIAL_DATA before anything is read. */
    constructor (primary: map<string, Doc>, legacy: map<string, JsonText>)
      ensures this.primary == primary && this.legacy == legacy
      ensures siteData == Initial && !loaded
    {
      this.primary := primary;
      this.legacy := legacy;
      siteData := Initial;
      loaded := false;
    }

    /** loadData: build the document, add one to its visit count, show it and
      write it back to the primary store. A failed read or a legacy text that
      does not parse leaves the page on what it shows; a failed write leaves
      the store as it was. The legacy store is only read. */
    method Load(readOk: bool, writeOk: bool)
      modifies this
      ensures loaded && legacy == old(legacy)
      ensures readOk && Loaded(old(primary), old(legacy)).Some? ==>
        && siteData == CountVisit(Loaded(old(primary), old(legacy)).value)
        && Complete(siteData)
        && primary == (if writeOk then old(primary)[DocKey := siteData] else old(primary))
      ensures !(readOk && Loaded(old(primary), old(legacy)).Some?) ==>
        siteData == old(siteData) && primary == old(primary)
    {
      if readOk {
        var current := Initial;
        var parsedOk := true;
        if DocKey in primary {
          current := Merge(primary[DocKey]);
        } else if HasLegacyText(legacy) {
          var parsed := Parse(legacy[LegacyKey]);
          if parsed.Some? {
            current := Merge(parsed.value);
          } else {
            parsedOk := false;
          }
        }
        if parsedOk {
          var updated := CountVisit(current);
          siteData := updated;
          if writeOk {
            primary := primary[DocKey := updated];
          }
        }
      }
      loaded := true;
    }

    /** handleSaveData: show the whole new document, put it in the primary store
      and mirror its JSON text into the legacy store. The mirror is written
      only after the put succeeded. */
    method Save(newData: Doc, writeOk: bool, mirrorOk: bool)
      modifies this
      ensures siteData == newData && loaded == old(loaded)
      ensures primary == if writeOk then old(primary)[DocKey := newData] else old(primary)
      ensures legacy == if writeOk && mirrorOk then old(legacy)[LegacyKey := Stringify(newData)] else old(legacy)
    {
      siteData := newData;
      if writeOk {
        primary := primary[DocKey := newData];
        if mirrorOk {
          legacy := legacy[LegacyKey := Stringify(newData)];
        }
      }
    }

    /** handleContactSubmit: the new inquiry goes first, the document is shown
      and put in the primary store; the legacy store is not updated. */
    method SubmitContact(name: string, email: string, phone: string, message: string,
                         id: string, timestamp: string, writeOk: bool)
      modifies this
      ensures siteData == AddInquiry(old(siteData), Inquiry(id, name, email, phone, message, timestamp))
      ensures primary == if writeOk then old(primary)[DocKey := siteData] else old(primary)
      ensures legacy == old(legacy) && loaded == old(loaded)
    {
      var inquiry := Inquiry(id, name, email, phone, message, timestamp);
      var updated := AddInquiry(siteData, inquiry);
      siteData := updated;
      if writeOk {
        primary := primary[DocKey := updated];
      }
    }
  }
}
