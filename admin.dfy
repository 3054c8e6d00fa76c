/** The admin dashboard: a working copy of the site document that the editors
    change field by field and that is published to the site only on Save.
    Prompts and confirmations (`prompt`, `confirm`), the clock (`Date.now`,
    `toISOString`) and file reading are parameters: `answer` is what `prompt`
    returned (`None` for Cancel), `confirmed` what `confirm` returned, `id` and
    `date` the clock readings, `file` the data URL of the chosen file (`None`
    when no file was chosen). */
module Admin {
  import opened Options
  import opened JsText
  import opened Document
  import opened Transforms
  import Storage

  /** The items input of skill `idx`: `items = text.split(',').map(s => s.trim())`. */
  function SetSkillItems(s: seq<Skill>, idx: nat, text: string): (r: seq<Skill>)
    requires idx < |s|
    ensures |r| == |s|
    ensures r[idx].items == SplitTrimmed(text) && r[idx].(items := s[idx].items) == s[idx]
    ensures forall j :: 0 <= j < |s| && j != idx ==> r[j] == s[j]
  {
    s[idx := s[idx].(items := SplitTrimmed(text))]
  }

  /** The tags input of project `idx`, parsed the same way. */
  function SetProjectTags(s: seq<Project>, idx: nat, text: string): (r: seq<Project>)
    requires idx < |s|
    ensures |r| == |s|
    ensures r[idx].tags == SplitTrimmed(text) && r[idx].(tags := s[idx].tags) == s[idx]
    ensures forall j :: 0 <= j < |s| && j != idx ==> r[j] == s[j]
  {
    s[idx := s[idx].(tags := SplitTrimmed(text))]
  }

  /** The items input shows `items.join(', ')`; typing that text back changes
      nothing when the items are trimmed and free of commas. */
  lemma RetypeShownItems(s: seq<Skill>, idx: nat)
    requires idx < |s|
    requires s[idx].items != []
    requires forall i :: 0 <= i < |s[idx].items| ==> IsTrimmed(s[idx].items[i]) && ',' !in s[idx].items[i]
    ensures SetSkillItems(s, idx, Join(s[idx].items, ", ")) == s
  {
    ShownListRoundTrip(s[idx].items);
  }

  /** The same holds for project tags. */
  lemma RetypeShownTags(s: seq<Project>, idx: nat)
    requires idx < |s|
    requires s[idx].tags != []
    requires forall i :: 0 <= i < |s[idx].tags| ==> IsTrimmed(s[idx].tags[i]) && ',' !in s[idx].tags[i]
    ensures SetProjectTags(s, idx, Join(s[idx].tags, ", ")) == s
  {
    ShownListRoundTrip(s[idx].tags);
  }

  /** A new project has no tags and its tags input shows the empty string; any
      edit that leaves the input empty gives it one empty tag. */
  lemma EmptyTagsInput(s: seq<Project>, idx: nat)
    requires idx < |s|
    ensures Join(NewProject(s[idx].id).tags, ", ") == ""
    ensures SetProjectTags(s, idx, "")[idx].tags == [""]
  {
    SplitTrimmedOfEmpty();
  }

  /** Removing the entry an Add button just appended gives the list back. */
  lemma RemoveAdded<T>(s: seq<T>, x: T)
    ensures RemoveAt(s + [x], |s|) == s
  {
    assert (s + [x])[..|s|] == s;
  }

  /** `{ ...data, visitCount: parseInt(text) || 0 }`: `parsed` is `None` when
      `parseInt` gives NaN, and NaN and 0 both become 0. */
  function VisitCountInput(parsed: Option<int>): (r: int)
    ensures parsed.None? ==> r == 0
    ensures parsed.Some? ==> r == parsed.value
  {
    parsed.GetOr(0)
  }

  class Editor {
    /** The dashboard's working copy. */
    var data: Doc

    constructor (current: Doc)
      ensures data == current
    {
      data := current;
    }

    /** Opening the dashboard reloads the working copy from the site. */
    method Open(current: Doc)
      modifies this
      ensures data == current
    {
      data := current;
    }

    /** handleGeneralChange. */
    method GeneralChange(lang: Language, section: string, key: string, val: string)
      requires data.translations.Some? && lang in data.translations.value
      modifies this
      ensures data == old(data).(translations := Some(SetText(old(data).translations.value, lang, section, key, val)))
    {
      data := data.(translations := Some(SetText(data.translations.value, lang, section, key, val)));
    }

    /** handleSocialChange. */
    method SocialChange(key: string, val: string)
      modifies this
      ensures data == old(data).(socials := Some(SetEntry(old(data).socials, key, val)))
    {
      data := data.(socials := Some(SetEntry(data.socials, key, val)));
    }

    /** handleContactInfoChange. */
    method ContactInfoChange(key: string, val: string)
      modifies this
      ensures data == old(data).(contactInfo := Some(SetEntry(old(data).contactInfo, key, val)))
    {
      data := data.(contactInfo := Some(SetEntry(data.contactInfo, key, val)));
    }

    /** The visit-count input. */
    method SetVisitCount(parsed: Option<int>)
      modifies this
      ensures data == old(data).(visitCount := Some(VisitCountInput(parsed)))
    {
      var n := if parsed.Some? then parsed.value else 0;
      data := data.(visitCount := Some(n));
    }

    /** handleImageUpload: with a file chosen, the project with that id gets its
      data URL; without one nothing happens. */
    method UploadProjectImage(projectId: string, file: Option<string>)
      requires file.Some? ==> data.projects.Some?
      modifies this
      ensures file.None? ==> data == old(data)
      ensures file.Some? ==> data == old(data).(projects := Some(SetProjectImage(old(data).projects.value, projectId, file.value)))
    {
      if file.Some? {
        data := data.(projects := Some(SetProjectImage(data.projects.value, projectId, file.value)));
      }
    }

    /** handleProfileUpload. */
    method UploadProfile(file: Option<string>)
      modifies this
      ensures file.None? ==> data == old(data)
      ensures file.Some? ==> data == old(data).(profileImage := file)
    {
      if file.Some? {
        data := data.(profileImage := file);
      }
    }

    /** handleBannerUpload. */
    method UploadBanner(file: Option<string>)
      modifies this
      ensures file.None? ==> data == old(data)
      ensures file.Some? ==> data == old(data).(bannerImage := file)
    {
      if file.Some? {
        data := data.(bannerImage := file);
      }
    }

    /** handleExport: the JSON text of the working copy, which reads back as it. */
    method Export() returns (t: JsonText)
      ensures Parse(t) == Some(data)
    {
      t := Stringify(data);
    }

    /** handleImport: text that parses replaces the working copy as it is, with
      no merge; text that does not parse changes nothing. `ok` selects the
      alert shown. */
    method Import(text: JsonText) returns (ok: bool)
      modifies this
      ensures ok <==> Parse(text).Some?
      ensures ok ==> data == Parse(text).value
      ensures !ok ==> data == old(data)
    {
      var imported := Parse(text);
      ok := imported.Some?;
      if ok {
        data := imported.value;
      }
    }

    /** createSnapshot. */
    method TakeSnapshot(answer: Option<string>, id: string, date: string)
      modifies this
      ensures data == CreateSnapshot(old(data), answer, id, date)
    {
      data := CreateSnapshot(data, answer, id, date);
    }

    /** restoreSnapshot. */
    method RestoreSnapshot(snap: Snapshot, confirmed: bool)
      modifies this
      ensures data == Restore(old(data), snap, confirmed)
    {
      if confirmed {
        data := snap.data.(snapshots := data.snapshots);
      }
    }

    /** deleteInquiry. */
    method DeleteInquiry(id: string, confirmed: bool)
      requires data.inquiries.Some?
      modifies this
      ensures data == Transforms.DeleteInquiry(old(data), id, confirmed)
    {
      if confirmed {
        data := data.(inquiries := Some(RemoveId(data.inquiries.value, InquiryKey, id)));
      }
    }

    /** clearAllInquiries. */
    method ClearInquiries(confirmed: bool)
      modifies this
      ensures data == Transforms.ClearInquiries(old(data), confirmed)
    {
      if confirmed {
        data := data.(inquiries := Some([]));
      }
    }

    /** The Reset Default button. */
    method ResetDefaults(confirmed: bool)
      modifies this
      ensures data == Reset(old(data), confirmed)
    {
      if confirmed {
        data := Initial.(snapshots := data.snapshots);
      }
    }

    /** The delete button of a snapshot. */
    method DeleteSnapshot(id: string)
      requires data.snapshots.Some?
      modifies this
      ensures data == Transforms.DeleteSnapshot(old(data), id)
    {
      data := data.(snapshots := Some(RemoveId(data.snapshots.value, SnapshotKey, id)));
    }

    // ----- Skills tab -----

    method AddSkill(id: string)
      requires data.skills.Some?
      modifies this
      ensures data == old(data).(skills := Some(old(data).skills.value + [NewSkill(id)]))
    {
      data := data.(skills := Some(data.skills.value + [NewSkill(id)]));
    }

    method RemoveSkill(idx: nat)
      requires data.skills.Some? && idx < |data.skills.value|
      modifies this
      ensures data == old(data).(skills := Some(RemoveAt(old(data).skills.value, idx)))
    {
      data := data.(skills := Some(RemoveAt(data.skills.value, idx)));
    }

    method EditSkillItems(idx: nat, text: string)
      requires data.skills.Some? && idx < |data.skills.value|
      modifies this
      ensures data == old(data).(skills := Some(SetSkillItems(old(data).skills.value, idx, text)))
    {
      data := data.(skills := Some(SetSkillItems(data.skills.value, idx, text)));
    }

    // ----- Projects tab -----

    method AddProject(id: string)
      requires data.projects.Some?
      modifies this
      ensures data == old(data).(projects := Some(old(data).projects.value + [NewProject(id)]))
    {
      data := data.(projects := Some(data.projects.value + [NewProject(id)]));
    }

    method RemoveProject(idx: nat)
      requires data.projects.Some? && idx < |data.projects.value|
      modifies this
      ensures data == old(data).(projects := Some(RemoveAt(old(data).projects.value, idx)))
    {
      data := data.(projects := Some(RemoveAt(data.projects.value, idx)));
    }

    method EditProjectTitle(idx: nat, title: string)
      requires data.projects.Some? && idx < |data.projects.value|
      modifies this
      ensures var ps := old(data).projects.value;
              data == old(data).(projects := Some(ps[idx := ps[idx].(title := title)]))
    {
      var ps := data.projects.value;
      data := data.(projects := Some(ps[idx := ps[idx].(title := title)]));
    }

    method EditProjectDesc(idx: nat, desc: string)
      requires data.projects.Some? && idx < |data.projects.value|
      modifies this
      ensures var ps := old(data).projects.value;
              data == old(data).(projects := Some(ps[idx := ps[idx].(desc := desc)]))
    {
      var ps := data.projects.value;
      data := data.(projects := Some(ps[idx := ps[idx].(desc := desc)]));
    }

    method EditProjectTags(idx: nat, text: string)
      requires data.projects.Some? && idx < |data.projects.value|
      modifies this
      ensures data == old(data).(projects := Some(SetProjectTags(old(data).projects.value, idx, text)))
    {
      data := data.(projects := Some(SetProjectTags(data.projects.value, idx, text)));
    }

    // ----- Testimonials tab -----

    method AddTestimonial(id: string)
      requires data.testimonials.Some?
      modifies this
      ensures data == old(data).(testimonials := Some(old(data).testimonials.value + [NewTestimonial(id)]))
    {
      data := data.(testimonials := Some(data.testimonials.value + [NewTestimonial(id)]));
    }

    method RemoveTestimonial(idx: nat)
      requires data.testimonials.Some? && idx < |data.testimonials.value|
      modifies this
      ensures data == old(data).(testimonials := Some(RemoveAt(old(data).testimonials.value, idx)))
    {
      data := data.(testimonials := Some(RemoveAt(data.testimonials.value, idx)));
    }

    method EditTestimonialAuthor(idx: nat, author: string)
      requires data.testimonials.Some? && idx < |data.testimonials.value|
      modifies this
      ensures var ts := old(data).testimonials.value;
              data == old(data).(testimonials := Some(ts[idx := ts[idx].(author := author)]))
    {
      var ts := data.testimonials.value;
      data := data.(testimonials := Some(ts[idx := ts[idx].(author := author)]));
    }

    method EditTestimonialContent(idx: nat, content: string)
      requires data.testimonials.Some? && idx < |data.testimonials.value|
      modifies this
      ensures var ts := old(data).testimonials.value;
              data == old(data).(testimonials := Some(ts[idx := ts[idx].(content := content)]))
    {
      var ts := data.testimonials.value;
      data := data.(testimonials := Some(ts[idx := ts[idx].(content := content)]));
    }

    /** The Save button: hands the working copy to the site's save handler. */
    method Publish(site: Storage.Site, writeOk: bool, mirrorOk: bool)
      modifies site
      ensures data == old(data)
      ensures site.siteData == data && site.loaded == old(site.loaded)
      ensures site.primary == if writeOk then old(site.primary)[Storage.DocKey := data] else old(site.primary)
      ensures site.legacy == if writeOk && mirrorOk
                             then old(site.legacy)[Storage.LegacyKey := Stringify(data)]
                             else old(site.legacy)
    {
      site.Save(data, writeOk, mirrorOk);
    }
  }

  /** A backup as it is used: the file exported by one dashboard (`source`) is
      imported into another (`target`, possibly the same one), saved, and the
      page is reloaded. The import installs the backup unmerged; the reload
      merges it over the defaults and counts one more visit, so the page shows
      the backed-up document with every key present and its count raised by one. */
  method BackupThenReload(source: Editor, target: Editor, site: Storage.Site) returns (ok: bool)
    modifies target, site
    ensures ok && target.data == old(source.data)
    ensures site.siteData == CountVisit(Merge(old(source.data)))
    ensures Complete(site.siteData)
    ensures site.primary == old(site.primary)[Storage.DocKey := site.siteData]
  {
    var text := source.Export();
    ok := target.Import(text);
    target.Publish(site, true, true);
    Storage.ReloadAfterSave(old(site.primary), site.legacy, target.data);
    site.Load(true, true);
  }
}
