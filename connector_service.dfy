/** External connectors: the filename and MIME-type classifiers, topic and Notion title
    extraction, and the connect / sync / disconnect transitions of the per-user connector
    records, with the import of materials that skips what was already imported. The
    Google Drive and Notion calls are parameters: a token reply, a file or page listing, or
    `None` when the call fails. */
module ConnectorService {
  import opened Common
  import opened LearningMaterial

  // ---------------------------------------------------------------------------------------
  // File classification

  predicate MentionsTest(lower: string)
  {
    Contains(lower, "test") || Contains(lower, "exam") || Contains(lower, "quiz")
  }

  predicate MentionsAssignment(lower: string)
  {
    Contains(lower, "assignment") || Contains(lower, "homework") || Contains(lower, "hw")
  }

  predicate MentionsPractice(lower: string)
  {
    Contains(lower, "practice") || Contains(lower, "exercise")
  }

  predicate MentionsBook(lower: string)
  {
    Contains(lower, "textbook") || Contains(lower, "book")
  }

  /** `categorizeFile`: keyword groups are tried in a fixed priority on the lower-cased name;
      the first group that matches decides, and `study_material` is the fallback. */
  function CategorizeFile(filename: string): (r: string)
    ensures r in MaterialCategories
    ensures var lower := ToLower(filename);
      && (r == "test" <==> MentionsTest(lower))
      && (r == "assignment" <==> !MentionsTest(lower) && MentionsAssignment(lower))
      && (r == "practice" <==> !MentionsTest(lower) && !MentionsAssignment(lower) && MentionsPractice(lower))
      && (r == "reference" <==> !MentionsTest(lower) && !MentionsAssignment(lower) && !MentionsPractice(lower)
                                && MentionsBook(lower))
      && (r == "study_material" <==> !MentionsTest(lower) && !MentionsAssignment(lower) && !MentionsPractice(lower)
                                     && !MentionsBook(lower))
  {
    var lower := ToLower(filename);
    if MentionsTest(lower) then "test"
    else if MentionsAssignment(lower) then "assignment"
    else if MentionsPractice(lower) then "practice"
    else if MentionsBook(lower) then "reference"
    else "study_material"
  }

  /** The category does not depend on the case of the name. */
  lemma CategorizeIgnoresCase(filename: string)
    ensures CategorizeFile(ToLower(filename)) == CategorizeFile(filename)
  {
    ToLowerIdempotent(filename);
  }

  /** A name containing `textbook` contains `book`, so the `textbook` keyword never decides
      anything on its own. */
  lemma {:induction false} TextbookMentionsBook(s: string)
    requires Contains(s, "textbook")
    ensures Contains(s, "book")
    decreases |s|
  {
    if "textbook" <= s {
      assert s[4..8] == "book";
      ContainsAt(s, "book", 4);
    } else {
      TextbookMentionsBook(s[1..]);
    }
  }

  /** `determineFileType`: the MIME type (as given, not lower-cased) is tested for `pdf`,
      then `document` or `word`, then `video`; anything else is a document. */
  function DetermineFileType(mimeType: string): (r: string)
    ensures r in ["pdf", "document", "video"]
    ensures r == "pdf" <==> Contains(mimeType, "pdf")
    ensures r == "video" <==> !Contains(mimeType, "pdf") && !Contains(mimeType, "document")
                               && !Contains(mimeType, "word") && Contains(mimeType, "video")
    ensures r in MaterialTypes
  {
    if Contains(mimeType, "pdf") then "pdf"
    else if Contains(mimeType, "document") || Contains(mimeType, "word") then "document"
    else if Contains(mimeType, "video") then "video"
    else "document"
  }

  // ---------------------------------------------------------------------------------------
  // Topics

  /** The subjects `extractTopics` looks for, in the order it checks them. */
  const Subjects: seq<string> := ["math", "calculus", "algebra", "physics", "chemistry", "biology", "cs", "programming"]

  predicate Distinct(list: seq<string>)
  {
    forall i, j :: 0 <= i < j < |list| ==> list[i] != list[j]
  }

  lemma SubjectsDistinct()
    ensures Distinct(Subjects)
  {
  }

  /** The first position of `x` in `list`. */
  function IndexOf(list: seq<string>, x: string): (r: nat)
    requires x in list
    ensures r < |list| && list[r] == x
    ensures forall j :: 0 <= j < r ==> list[j] != x
  {
    if list[0] == x then 0 else 1 + IndexOf(list[1..], x)
  }

  /** The entries of `list` that occur in `lower`, in list order. */
  function Occurring(lower: string, list: seq<string>): seq<string>
    decreases |list|
  {
    if list == [] then []
    else Occurring(lower, list[..|list| - 1]) + (if Contains(lower, list[|list| - 1]) then [list[|list| - 1]] else [])
  }

  lemma {:induction false} OccurringMembers(lower: string, list: seq<string>)
    ensures forall t :: t in Occurring(lower, list) <==> t in list && Contains(lower, t)
    decreases |list|
  {
    if list != [] {
      var init := list[..|list| - 1];
      OccurringMembers(lower, init);
      assert list == init + [list[|list| - 1]];
    }
  }

  lemma IndexOfInPrefix(init: seq<string>, last: string, x: string)
    requires x in init
    ensures IndexOf(init + [last], x) == IndexOf(init, x)
  {
    var list := init + [last];
    var a, b := IndexOf(list, x), IndexOf(init, x);
    assert list[b] == x;
    assert a <= b;
    assert init[a] == list[a];
  }

  /** Entries of `r` come from `list` and appear in `list`'s order, so without repeats. */
  predicate InListOrder(r: seq<string>, list: seq<string>)
  {
    forall i, j :: 0 <= i < j < |r| ==> r[i] in list && r[j] in list && IndexOf(list, r[i]) < IndexOf(list, r[j])
  }

  /** For a list without repeats, the occurring entries come in list order, without repeats. */
  lemma {:induction false} OccurringInListOrder(lower: string, list: seq<string>)
    requires Distinct(list)
    ensures InListOrder(Occurring(lower, list), list)
    decreases |list|
  {
    if list != [] {
      var init := list[..|list| - 1];
      var last := list[|list| - 1];
      assert list == init + [last];
      assert Distinct(init);
      OccurringInListOrder(lower, init);
      OccurringMembers(lower, init);
      var prev := Occurring(lower, init);
      var r := Occurring(lower, list);
      forall i, j | 0 <= i < j < |r|
        ensures r[i] in list && r[j] in list && IndexOf(list, r[i]) < IndexOf(list, r[j])
      {
        assert r[i] == prev[i];
        assert r[i] in init;
        IndexOfInPrefix(init, last, r[i]);
        if j < |prev| {
          assert r[j] == prev[j];
          IndexOfInPrefix(init, last, r[j]);
        } else {
          assert r[j] == last;
          forall k | 0 <= k < |init| ensures init[k] != last {
            assert list[k] == init[k];
          }
          assert IndexOf(list, last) == |init|;
        }
      }
    }
  }

  /** `extractTopics`: the subjects found, case-insensitively, in the filename. */
  method ExtractTopics(filename: string) returns (topics: seq<string>)
    ensures topics == Occurring(ToLower(filename), Subjects)
    ensures forall t :: t in topics <==> t in Subjects && Contains(ToLower(filename), t)
    ensures forall i, j :: 0 <= i < j < |topics| ==> IndexOf(Subjects, topics[i]) < IndexOf(Subjects, topics[j])
  {
    var lower := ToLower(filename);
    topics := [];
    for k := 0 to |Subjects|
      invariant topics == Occurring(lower, Subjects[..k])
    {
      assert Subjects[..k + 1][..k] == Subjects[..k];
      if Contains(lower, Subjects[k]) {
        topics := topics + [Subjects[k]];
      }
    }
    assert Subjects[..|Subjects|] == Subjects;
    OccurringMembers(lower, Subjects);
    SubjectsDistinct();
    OccurringInListOrder(lower, Subjects);
  }

  // ---------------------------------------------------------------------------------------
  // Notion titles

  datatype RichText = RichText(plainText: string)

  /** A page property; `title` is the property's rich-text list when it has one. */
  datatype NotionProperty = NotionProperty(title: Option<seq<RichText>>)

  /** A search result; `properties` is `None` when the result has none. */
  datatype NotionPage = NotionPage(
    objectType: string,
    id: string,
    url: Option<string>,
    properties: Option<map<string, NotionProperty>>)

  /** `properties.title || properties.Name`: a present `title` property wins. */
  function TitleProperty(page: NotionPage): (r: Option<NotionProperty>)
    ensures page.properties.None? ==> r.None?
    ensures page.properties.Some? && "title" in page.properties.value ==> r == Some(page.properties.value["title"])
    ensures page.properties.Some? && "title" !in page.properties.value && "Name" in page.properties.value ==>
      r == Some(page.properties.value["Name"])
    ensures page.properties.Some? && "title" !in page.properties.value && "Name" !in page.properties.value ==>
      r.None?
  {
    match page.properties
    case None => None
    case Some(props) =>
      if "title" in props then Some(props["title"])
      else if "Name" in props then Some(props["Name"])
      else None
  }

  /** `extractNotionTitle`: the first plain text of the title property, else `Untitled`
      (a page without properties falls into the caught error and also gets `Untitled`). */
  function ExtractNotionTitle(page: NotionPage): (r: string)
    ensures var p := TitleProperty(page);
      if p.Some? && p.value.title.Some? && |p.value.title.value| > 0 then r == p.value.title.value[0].plainText
      else r == "Untitled"
  {
    var p := TitleProperty(page);
    if p.Some? && p.value.title.Some? && |p.value.title.value| > 0 then p.value.title.value[0].plainText
    else "Untitled"
  }

  /** A `title` property shadows `Name` even when its rich-text list is empty. */
  lemma TitleShadowsName(page: NotionPage)
    requires page.properties.Some? && "title" in page.properties.value
    requires page.properties.value["title"].title == Some([])
    ensures ExtractNotionTitle(page) == "Untitled"
  {
  }

  /** The title is `Untitled` or the first plain text of the `title` or `Name` property. */
  lemma NotionTitleSource(page: NotionPage)
    ensures var r := ExtractNotionTitle(page);
      || r == "Untitled"
      || exists key :: key in ["title", "Name"] && page.properties.Some? && key in page.properties.value
           && page.properties.value[key].title.Some? && |page.properties.value[key].title.value| > 0
           && r == page.properties.value[key].title.value[0].plainText
  {
    var p := TitleProperty(page);
    if p.Some? && p.value.title.Some? && |p.value.title.value| > 0 {
      var key := if "title" in page.properties.value then "title" else "Name";
      assert key in ["title", "Name"];
      assert page.properties.value[key] == p.value;
    }
  }

  // ---------------------------------------------------------------------------------------
  // Import of materials

  /** A material about to be created: its fixed fields and its metadata. */
  datatype Candidate = Candidate(info: MaterialInfo, metadata: Metadata)

  /** The records of a list of candidates; `MaterialInfos` is the same projection over
      stored materials, so that a sync can compare what it imports with what is stored. */
  function CandidateInfos(cs: seq<Candidate>): (r: seq<MaterialInfo>)
    ensures |r| == |cs| && forall i :: 0 <= i < |cs| ==> r[i] == cs[i].info
  {
    seq(|cs|, i requires 0 <= i < |cs| => cs[i].info)
  }

  /** `LearningMaterial.findOne({ userId, externalId })` finds something. */
  predicate HasImport(infos: seq<MaterialInfo>, userId: string, externalId: string)
  {
    exists i :: 0 <= i < |infos| && infos[i].userId == userId && infos[i].externalId == externalId
  }

  /** No two materials share a user and an external id. */
  predicate NoDuplicateImports(infos: seq<MaterialInfo>)
  {
    forall i, j :: 0 <= i < j < |infos| ==>
      !(infos[i].userId == infos[j].userId && infos[i].externalId == infos[j].externalId)
  }

  /** The candidates a sync loop creates, given the materials `known` before it: each is
      skipped when a material with its user and external id exists, counting those the
      same loop created earlier. */
  function NewImports(known: seq<MaterialInfo>, cands: seq<Candidate>): seq<Candidate>
    decreases |cands|
  {
    if cands == [] then []
    else
      var prev := NewImports(known, cands[..|cands| - 1]);
      var c := cands[|cands| - 1];
      if HasImport(known + CandidateInfos(prev), c.info.userId, c.info.externalId) then prev else prev + [c]
  }

  lemma InfosOfSnoc(cs: seq<Candidate>, c: Candidate)
    ensures CandidateInfos(cs + [c]) == CandidateInfos(cs) + [c.info]
  {
  }

  /** Only listed candidates are created, and none that was known before. */
  predicate AllNew(known: seq<MaterialInfo>, r: seq<Candidate>, cands: seq<Candidate>)
  {
    forall j :: 0 <= j < |r| ==> r[j] in cands && !HasImport(known, r[j].info.userId, r[j].info.externalId)
  }

  lemma {:induction false} NewImportsAreNew(known: seq<MaterialInfo>, cands: seq<Candidate>)
    ensures AllNew(known, NewImports(known, cands), cands)
    decreases |cands|
  {
    if cands != [] {
      var init := cands[..|cands| - 1];
      var c := cands[|cands| - 1];
      NewImportsAreNew(known, init);
      var prev := NewImports(known, init);
      assert cands == init + [c];
      var r := NewImports(known, cands);
      if !HasImport(known + CandidateInfos(prev), c.info.userId, c.info.externalId) {
        forall i | 0 <= i < |known| ensures !(known[i].userId == c.info.userId && known[i].externalId == c.info.externalId) {
          assert (known + CandidateInfos(prev))[i] == known[i];
        }
        assert r == prev + [c];
      }
      forall j | 0 <= j < |r| ensures r[j] in cands && !HasImport(known, r[j].info.userId, r[j].info.externalId) {
        if j < |prev| {
          assert r[j] == prev[j] && prev[j] in init;
        }
      }
    }
  }

  /** After the loop every listed candidate's (user, external id) is present. */
  lemma {:induction false} NewImportsCover(known: seq<MaterialInfo>, cands: seq<Candidate>)
    ensures var all := known + CandidateInfos(NewImports(known, cands));
      forall k :: 0 <= k < |cands| ==> HasImport(all, cands[k].info.userId, cands[k].info.externalId)
    decreases |cands|
  {
    if cands != [] {
      var init := cands[..|cands| - 1];
      var c := cands[|cands| - 1];
      NewImportsCover(known, init);
      var prev := NewImports(known, init);
      var r := NewImports(known, cands);
      var before := known + CandidateInfos(prev);
      var all := known + CandidateInfos(r);
      assert |before| <= |all| && forall i :: 0 <= i < |before| ==> all[i] == before[i] by {
        if r != prev {
          InfosOfSnoc(prev, c);
          assert all == before + [c.info];
        }
      }
      forall k | 0 <= k < |cands| ensures HasImport(all, cands[k].info.userId, cands[k].info.externalId) {
        if k < |init| {
          assert cands[k] == init[k];
          var i :| 0 <= i < |before| && before[i].userId == init[k].info.userId && before[i].externalId == init[k].info.externalId;
          assert all[i] == before[i];
        } else if r != prev {
          InfosOfSnoc(prev, c);
          assert all[|before|] == c.info;
        } else {
          var i :| 0 <= i < |before| && before[i].userId == c.info.userId && before[i].externalId == c.info.externalId;
          assert all[i] == before[i];
        }
      }
    }
  }

  /** A sync never creates a second material with the same user and external id. */
  lemma {:induction false} NewImportsKeepUnique(known: seq<MaterialInfo>, cands: seq<Candidate>)
    requires NoDuplicateImports(known)
    ensures NoDuplicateImports(known + CandidateInfos(NewImports(known, cands)))
    decreases |cands|
  {
    if cands != [] {
      var init := cands[..|cands| - 1];
      var c := cands[|cands| - 1];
      NewImportsKeepUnique(known, init);
      var prev := NewImports(known, init);
      var before := known + CandidateInfos(prev);
      if !HasImport(before, c.info.userId, c.info.externalId) {
        InfosOfSnoc(prev, c);
        var all := known + CandidateInfos(prev + [c]);
        assert all == before + [c.info];
        forall i, j | 0 <= i < j < |all|
          ensures !(all[i].userId == all[j].userId && all[i].externalId == all[j].externalId)
        {
          assert all[i] == before[i];
          if j < |before| {
            assert all[j] == before[j];
          } else {
            assert all[j] == c.info;
          }
        }
      }
    }
  }

  /** When every candidate is already present the loop creates nothing. */
  lemma {:induction false} NewImportsNone(known: seq<MaterialInfo>, cands: seq<Candidate>)
    requires forall k :: 0 <= k < |cands| ==> HasImport(known, cands[k].info.userId, cands[k].info.externalId)
    ensures NewImports(known, cands) == []
    decreases |cands|
  {
    if cands != [] {
      NewImportsNone(known, cands[..|cands| - 1]);
      assert known + CandidateInfos([]) == known;
    }
  }

  /** Syncing the same listing a second time creates nothing. */
  lemma ResyncImportsNothing(known: seq<MaterialInfo>, cands: seq<Candidate>)
    ensures NewImports(known + CandidateInfos(NewImports(known, cands)), cands) == []
  {
    NewImportsCover(known, cands);
    NewImportsNone(known + CandidateInfos(NewImports(known, cands)), cands);
  }

  // ---------------------------------------------------------------------------------------
  // Listings

  datatype DriveFile = DriveFile(id: string, name: string, mimeType: string, size: Option<int>)

  function DriveCandidate(userId: string, connectorId: string, file: DriveFile): (c: Candidate)
    ensures c.info.userId == userId && c.info.connectorId == connectorId && c.info.externalId == file.id
    ensures c.info.title == file.name && c.info.kind == DetermineFileType(file.mimeType)
    ensures c.info.category == CategorizeFile(file.name)
    ensures c.info.topics == Occurring(ToLower(file.name), Subjects)
    ensures c.metadata.source == "google_drive" && c.metadata.url == Some("https://drive.google.com/file/d/" + file.id)
    ensures c.metadata.fileSize == file.size
  {
    Candidate(
      MaterialInfo(userId, connectorId, file.id, file.name, DetermineFileType(file.mimeType), CategorizeFile(file.name),
                   None, Occurring(ToLower(file.name), Subjects), None),
      Metadata("google_drive", Some("https://drive.google.com/file/d/" + file.id), file.size, None, None))
  }

  function DriveCandidates(userId: string, connectorId: string, files: seq<DriveFile>): (r: seq<Candidate>)
    ensures |r| == |files| && forall i :: 0 <= i < |files| ==> r[i] == DriveCandidate(userId, connectorId, files[i])
  {
    seq(|files|, i requires 0 <= i < |files| => DriveCandidate(userId, connectorId, files[i]))
  }

  function NotionCandidate(userId: string, connectorId: string, page: NotionPage): (c: Candidate)
    ensures c.info.userId == userId && c.info.connectorId == connectorId && c.info.externalId == page.id
    ensures c.info.title == ExtractNotionTitle(page) && c.info.kind == "notes"
    ensures c.info.category == CategorizeFile(ExtractNotionTitle(page)) && c.info.topics == []
    ensures c.metadata.source == "notion" && c.metadata.url == page.url
  {
    var title := ExtractNotionTitle(page);
    Candidate(
      MaterialInfo(userId, connectorId, page.id, title, "notes", CategorizeFile(title), None, [], None),
      Metadata("notion", page.url, None, None, None))
  }

  /** The search results that are pages, as candidates, in result order. */
  function NotionCandidates(userId: string, connectorId: string, pages: seq<NotionPage>): (r: seq<Candidate>)
    decreases |pages|
  {
    if pages == [] then []
    else
      var init := NotionCandidates(userId, connectorId, pages[..|pages| - 1]);
      var last := pages[|pages| - 1];
      if last.objectType == "page" then init + [NotionCandidate(userId, connectorId, last)] else init
  }

  lemma {:induction false} NotionCandidatesArePages(userId: string, connectorId: string, pages: seq<NotionPage>)
    ensures forall c :: c in NotionCandidates(userId, connectorId, pages) <==>
      exists p :: p in pages && p.objectType == "page" && c == NotionCandidate(userId, connectorId, p)
    decreases |pages|
  {
    if pages != [] {
      var init := pages[..|pages| - 1];
      NotionCandidatesArePages(userId, connectorId, init);
      assert pages == init + [pages[|pages| - 1]];
    }
  }

  // ---------------------------------------------------------------------------------------
  // Connectors

  datatype ConnectorType = GoogleDrive | Notion | Canvas | GitHub | LocalUpload

  datatype ConnectorStatus = Connected | Disconnected | Failed

  datatype Credentials = Credentials(accessToken: Option<string>, refreshToken: Option<string>, expiresAt: Option<Time>)

  const NoCredentials: Credentials := Credentials(None, None, None)

  datatype Connector = Connector(
    id: string,
    userId: string,
    kind: ConnectorType,
    status: ConnectorStatus,
    credentials: Credentials,
    lastSync: Option<Time>)

  /** The unique index on (userId, type). */
  datatype ConnectorKey = ConnectorKey(userId: string, kind: ConnectorType)

  /** The token reply of the OAuth exchange. */
  datatype Tokens = Tokens(accessToken: Option<string>, refreshToken: Option<string>, expiryDate: Option<int>)

  datatype ConnectorError = ConnectFailed | NotConnected | SyncFailed | ConnectorNotFound

  /** The stored Drive credentials: an expiry of 0 is falsy and is dropped. */
  function DriveCredentials(tokens: Tokens): (c: Credentials)
    ensures c.accessToken == tokens.accessToken && c.refreshToken == tokens.refreshToken
    ensures c.expiresAt.Some? <==> tokens.expiryDate.Some? && tokens.expiryDate.value != 0
    ensures c.expiresAt.Some? ==> c.expiresAt == tokens.expiryDate
  {
    Credentials(tokens.accessToken, tokens.refreshToken,
                if tokens.expiryDate.Some? && tokens.expiryDate.value != 0 then tokens.expiryDate else None)
  }

  /** The records of stored materials, the counterpart of `CandidateInfos`. */
  function MaterialInfos(ms: seq<Material>): (r: seq<MaterialInfo>)
    ensures |r| == |ms| && forall i :: 0 <= i < |ms| ==> r[i] == ms[i].info
  {
    seq(|ms|, i requires 0 <= i < |ms| => ms[i].info)
  }

  /** A created material stands for its candidate and starts unanalysed and not started. */
  predicate Creates(m: Material, c: Candidate)
    reads m
  {
    m.info == c.info && m.metadata == c.metadata && m.analysis == NotAnalyzed && m.progress == NotStarted
  }

  predicate CreatesAll(ms: seq<Material>, cs: seq<Candidate>)
    reads set m | m in ms
  {
    |ms| == |cs| && forall j :: 0 <= j < |ms| ==> Creates(ms[j], cs[j])
  }

  /** The connector records, keyed by the unique (user, type) pair, and the materials. */
  class SyncStore {
    var connectors: map<ConnectorKey, Connector>
    var materials: seq<Material>

    constructor ()
      ensures connectors == map[] && materials == []
    {
      connectors := map[];
      materials := [];
    }

    /** Every record sits under its own user and type. */
    predicate Valid()
      reads this
    {
      forall key :: key in connectors ==> connectors[key].userId == key.userId && connectors[key].kind == key.kind
    }

    predicate IsConnected(key: ConnectorKey)
      reads this
    {
      key in connectors && connectors[key].status == Connected
    }

    /** `findOneAndUpdate(..., { upsert: true })`: the record for the key is created or
        overwritten with the given status, credentials and sync time; an existing record
        keeps its id, a new one takes `newId`. */
    method Upsert(key: ConnectorKey, credentials: Credentials, now: Time, newId: string) returns (c: Connector)
      requires Valid()
      modifies this
      ensures Valid()
      ensures c == Connector(if key in old(connectors) then old(connectors)[key].id else newId,
                             key.userId, key.kind, Connected, credentials, Some(now))
      ensures connectors == old(connectors)[key := c] && materials == old(materials)
    {
      var id := if key in connectors then connectors[key].id else newId;
      c := Connector(id, key.userId, key.kind, Connected, credentials, Some(now));
      connectors := connectors[key := c];
    }

    /** `connectGoogleDrive`: a failed token exchange changes nothing; otherwise the user's
        Drive connector is connected with the returned tokens. */
    method ConnectGoogleDrive(userId: string, tokens: Option<Tokens>, now: Time, newId: string)
      returns (r: Result<Connector, ConnectorError>)
      requires Valid()
      modifies this
      ensures Valid()
      ensures tokens.None? ==> r == Err(ConnectFailed) && connectors == old(connectors) && materials == old(materials)
      ensures tokens.Some? ==>
        var key := ConnectorKey(userId, GoogleDrive);
        && r.Ok? && r.value.status == Connected && r.value.credentials == DriveCredentials(tokens.value)
        && r.value.lastSync == Some(now)
        && connectors == old(connectors)[key := r.value] && materials == old(materials)
    {
      if tokens.None? {
        return Err(ConnectFailed);
      }
      var c := Upsert(ConnectorKey(userId, GoogleDrive), DriveCredentials(tokens.value), now, newId);
      return Ok(c);
    }

    /** `connectNotion`: a failed test search changes nothing; otherwise the user's Notion
        connector is connected with only the access token. */
    method ConnectNotion(userId: string, accessToken: string, searchSucceeds: bool, now: Time, newId: string)
      returns (r: Result<Connector, ConnectorError>)
      requires Valid()
      modifies this
      ensures Valid()
      ensures !searchSucceeds ==> r == Err(ConnectFailed) && connectors == old(connectors) && materials == old(materials)
      ensures searchSucceeds ==>
        var key := ConnectorKey(userId, Notion);
        && r.Ok? && r.value.status == Connected && r.value.credentials == Credentials(Some(accessToken), None, None)
        && r.value.lastSync == Some(now)
        && connectors == old(connectors)[key := r.value] && materials == old(materials)
    {
      if !searchSucceeds {
        return Err(ConnectFailed);
      }
      var c := Upsert(ConnectorKey(userId, Notion), Credentials(Some(accessToken), None, None), now, newId);
      return Ok(c);
    }

    /** The loop shared by both syncs: create a material for each candidate whose user and
        external id is not found among the materials, those created so far included. */
    method ImportCandidates(cands: seq<Candidate>) returns (created: seq<Material>)
      modifies this
      ensures connectors == old(connectors)
      ensures materials == old(materials) + created
      ensures CreatesAll(created, NewImports(MaterialInfos(old(materials)), cands))
      ensures forall j :: 0 <= j < |created| ==> fresh(created[j])
    {
      ghost var known := MaterialInfos(materials);
      created := [];
      for i := 0 to |cands|
        invariant connectors == old(connectors)
        invariant materials == old(materials) + created
        invariant forall j :: 0 <= j < |created| ==> fresh(created[j])
        invariant CreatesAll(created, NewImports(known, cands[..i]))
      {
        ghost var prev := NewImports(known, cands[..i]);
        assert cands[..i + 1][..i] == cands[..i];
        var c := cands[i];
        assert MaterialInfos(materials) == known + CandidateInfos(prev) by {
          assert MaterialInfos(materials) == MaterialInfos(old(materials)) + MaterialInfos(created);
        }
        if !HasImport(MaterialInfos(materials), c.info.userId, c.info.externalId) {
          var m := new Material(c.info, c.metadata);
          created := created + [m];
          materials := materials + [m];
        }
      }
      assert cands[..|cands|] == cands;
    }

    /** `syncGoogleDrive`: only a connected Drive connector syncs; a failed listing marks
        it as failed; otherwise the new files are imported and the sync time recorded. */
    method SyncGoogleDrive(userId: string, listing: Option<seq<DriveFile>>, now: Time)
      returns (r: Result<seq<Material>, ConnectorError>)
      requires Valid()
      modifies this
      ensures Valid()
      ensures var key := ConnectorKey(userId, GoogleDrive);
        !old(IsConnected(key)) ==> r == Err(NotConnected) && connectors == old(connectors) && materials == old(materials)
      ensures var key := ConnectorKey(userId, GoogleDrive);
        old(IsConnected(key)) && listing.None? ==>
          && r == Err(SyncFailed) && materials == old(materials)
          && connectors == old(connectors)[key := old(connectors)[key].(status := Failed)]
      ensures var key := ConnectorKey(userId, GoogleDrive);
        old(IsConnected(key)) && listing.Some? ==>
          var c := old(connectors)[key];
          && r.Ok? && materials == old(materials) + r.value
          && CreatesAll(r.value, NewImports(MaterialInfos(old(materials)), DriveCandidates(userId, c.id, listing.value)))
          && (forall j :: 0 <= j < |r.value| ==> fresh(r.value[j]))
          && connectors == old(connectors)[key := c.(lastSync := Some(now))]
    {
      var key := ConnectorKey(userId, GoogleDrive);
      if !IsConnected(key) {
        return Err(NotConnected);
      }
      var c := connectors[key];
      if listing.None? {
        connectors := connectors[key := c.(status := Failed)];
        return Err(SyncFailed);
      }
      var created := ImportCandidates(DriveCandidates(userId, c.id, listing.value));
      connectors := connectors[key := c.(lastSync := Some(now))];
      return Ok(created);
    }

    /** `syncNotion`: as the Drive sync, over the search results that are pages. */
    method SyncNotion(userId: string, results: Option<seq<NotionPage>>, now: Time)
      returns (r: Result<seq<Material>, ConnectorError>)
      requires Valid()
      modifies this
      ensures Valid()
      ensures var key := ConnectorKey(userId, Notion);
        !old(IsConnected(key)) ==> r == Err(NotConnected) && connectors == old(connectors) && materials == old(materials)
      ensures var key := ConnectorKey(userId, Notion);
        old(IsConnected(key)) && results.None? ==>
          && r == Err(SyncFailed) && materials == old(materials)
          && connectors == old(connectors)[key := old(connectors)[key].(status := Failed)]
      ensures var key := ConnectorKey(userId, Notion);
        old(IsConnected(key)) && results.Some? ==>
          var c := old(connectors)[key];
          && r.Ok? && materials == old(materials) + r.value
          && CreatesAll(r.value, NewImports(MaterialInfos(old(materials)), NotionCandidates(userId, c.id, results.value)))
          && (forall j :: 0 <= j < |r.value| ==> fresh(r.value[j]))
          && connectors == old(connectors)[key := c.(lastSync := Some(now))]
    {
      var key := ConnectorKey(userId, Notion);
      if !IsConnected(key) {
        return Err(NotConnected);
      }
      var c := connectors[key];
      if results.None? {
        connectors := connectors[key := c.(status := Failed)];
        return Err(SyncFailed);
      }
      var created := ImportCandidates(NotionCandidates(userId, c.id, results.value));
      connectors := connectors[key := c.(lastSync := Some(now))];
      return Ok(created);
    }

    /** `disconnectConnector`: a missing connector is an error; otherwise it is disconnected
        and its credentials are cleared. */
    method Disconnect(userId: string, kind: ConnectorType) returns (r: Result<Connector, ConnectorError>)
      requires Valid()
      modifies this
      ensures Valid()
      ensures var key := ConnectorKey(userId, kind);
        key !in old(connectors) ==> r == Err(ConnectorNotFound) && connectors == old(connectors)
      ensures var key := ConnectorKey(userId, kind);
        key in old(connectors) ==>
          && r == Ok(old(connectors)[key].(status := Disconnected, credentials := NoCredentials))
          && connectors == old(connectors)[key := r.value]
      ensures materials == old(materials)
    {
      var key := ConnectorKey(userId, kind);
      if key !in connectors {
        return Err(ConnectorNotFound);
      }
      var c := connectors[key].(status := Disconnected, credentials := NoCredentials);
      connectors := connectors[key := c];
      return Ok(c);
    }
  }
}
