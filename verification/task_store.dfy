// FileTaskStore: a list of task records, cached in memory and kept in a JSON file.
module TaskStore {
  import opened Wrappers
  import opened DateTime

  type TaskId = string  // the text of a uuid

  datatype TaskEntity = TaskEntity(id: TaskId, owner: string, timestamp: Ticks)

  // ---- The file format ----

  datatype Json = JNumber(n: int) | JString(s: string) | JObject(fields: map<string, Json>) | JArray(items: seq<Json>)

  function Encode(t: TaskEntity): Json {
    JObject(map["id" := JString(t.id), "owner" := JString(t.owner), "timestamp" := JNumber(t.timestamp)])
  }

  function Decode(j: Json): Option<TaskEntity> {
    if j.JObject? && "id" in j.fields && "owner" in j.fields && "timestamp" in j.fields
       && j.fields["id"].JString? && j.fields["owner"].JString? && j.fields["timestamp"].JNumber?
       && Int64(j.fields["timestamp"].n)
    then Some(TaskEntity(j.fields["id"].s, j.fields["owner"].s, j.fields["timestamp"].n))
    else None
  }

  function EncodeItems(ts: seq<TaskEntity>): seq<Json> {
    if ts == [] then [] else [Encode(ts[0])] + EncodeItems(ts[1..])
  }

  function DecodeItems(js: seq<Json>): Option<seq<TaskEntity>> {
    if js == [] then Some([]) else
    var first, rest := Decode(js[0]), DecodeItems(js[1..]);
    if first.Some? && rest.Some? then Some([first.value] + rest.value) else None
  }

  datatype Content = Absent | Malformed | Document(json: Json)

  function Serialize(ts: seq<TaskEntity>): Content { Document(JArray(EncodeItems(ts))) }

  function Parse(c: Content): Option<seq<TaskEntity>> {
    if c.Document? && c.json.JArray? then DecodeItems(c.json.items) else None
  }

  // Reading back what was written gives the same records in the same order.
  lemma {:induction false} ParseSerialize(ts: seq<TaskEntity>)
    ensures Parse(Serialize(ts)) == Some(ts)
  {
    if ts != [] {
      ParseSerialize(ts[1..]);
      var js := EncodeItems(ts);
      assert js[0] == Encode(ts[0]) && js[1..] == EncodeItems(ts[1..]);
      assert Decode(js[0]) == Some(ts[0]);
      assert DecodeItems(js[1..]) == Some(ts[1..]);
      assert [ts[0]] + ts[1..] == ts;
    }
  }

  // A file can be read if and only if it is a list of objects of which each has the three fields,
  // of the right types; other fields do not matter. Then it says what the fields say, in order.
  lemma {:induction false} ReadableFile(items: seq<Json>)
    ensures Parse(Document(JArray(items))).Some? <==> forall i :: 0 <= i < |items| ==> IsRecord(items[i])
    ensures Parse(Document(JArray(items))).Some? ==>
      var ts := Parse(Document(JArray(items))).value;
      |ts| == |items| && forall i :: 0 <= i < |ts| ==> Says(items[i], ts[i])
  {
    if items != [] {
      var rest := items[1..];
      ReadableFile(rest);
      assert forall i :: 0 <= i < |rest| ==> rest[i] == items[i + 1];
      assert forall i :: 0 < i < |items| ==> items[i] == rest[i - 1];
    }
  }

  predicate IsRecord(j: Json) {
    && j.JObject? && "id" in j.fields && "owner" in j.fields && "timestamp" in j.fields
    && j.fields["id"].JString? && j.fields["owner"].JString?
    && j.fields["timestamp"].JNumber? && Int64(j.fields["timestamp"].n)
  }

  predicate Says(j: Json, t: TaskEntity) {
    && j.JObject? && "id" in j.fields && "owner" in j.fields && "timestamp" in j.fields
    && j.fields["id"] == JString(t.id) && j.fields["owner"] == JString(t.owner)
    && j.fields["timestamp"] == JNumber(t.timestamp)
  }

  // What is written says so as well.
  lemma WrittenRecord(t: TaskEntity)
    ensures IsRecord(Encode(t)) && Says(Encode(t), t)
  {
  }

  // ---- The list of records ----

  function IndexOf(ts: seq<TaskEntity>, id: TaskId): (i: nat)
    ensures i <= |ts|
    ensures i < |ts| ==> ts[i].id == id
    ensures forall j :: 0 <= j < i ==> ts[j].id != id
  {
    if ts == [] || ts[0].id == id then 0 else 1 + IndexOf(ts[1..], id)
  }

  function Find(ts: seq<TaskEntity>, id: TaskId): Option<TaskEntity> {
    var i := IndexOf(ts, id);
    if i < |ts| then Some(ts[i]) else None
  }

  function Without(ts: seq<TaskEntity>, id: TaskId): seq<TaskEntity> {
    var i := IndexOf(ts, id);
    if i < |ts| then ts[..i] + ts[i + 1..] else ts
  }

  // The first record with the id goes, and all others stay where they are.
  lemma WithoutInPlace(before: seq<TaskEntity>, e: TaskEntity, behind: seq<TaskEntity>)
    requires forall i :: 0 <= i < |before| ==> before[i].id != e.id
    ensures Without(before + [e] + behind, e.id) == before + behind
  {
    IndexIsFirst(before + [e] + behind, e.id, |before|);
  }

  predicate UniqueIds(ts: seq<TaskEntity>) {
    forall i, j :: 0 <= i < j < |ts| ==> ts[i].id != ts[j].id
  }

  // ---- The finite map that the list stands for ----

  function AsMap(ts: seq<TaskEntity>): map<TaskId, TaskEntity> {
    map t | t in ts :: t.id := Find(ts, t.id).value
  }

  lemma FindIsLookup(ts: seq<TaskEntity>, id: TaskId)
    ensures Find(ts, id) == if id in AsMap(ts) then Some(AsMap(ts)[id]) else None
  {
    var i := IndexOf(ts, id);
    if i < |ts| { assert ts[i] in ts; }
  }

  // The index of an id is the one place where it stands first.
  lemma IndexIsFirst(ts: seq<TaskEntity>, id: TaskId, i: nat)
    requires i <= |ts| && (i < |ts| ==> ts[i].id == id) && forall j :: 0 <= j < i ==> ts[j].id != id
    ensures IndexOf(ts, id) == i
  {
    var k := IndexOf(ts, id);
    assert !(k < i);
    assert !(i < k);
  }

  lemma FindAppended(ts: seq<TaskEntity>, e: TaskEntity, id: TaskId)
    ensures Find(ts + [e], id) ==
      if Find(ts, id).Some? then Find(ts, id) else if id == e.id then Some(e) else None
  {
    var i := IndexOf(ts, id);
    IndexIsFirst(ts + [e], id, if i == |ts| && id != e.id then i + 1 else i);
  }

  lemma FindWithout(ts: seq<TaskEntity>, id: TaskId, other: TaskId)
    requires UniqueIds(ts)
    ensures UniqueIds(Without(ts, id))
    ensures Find(Without(ts, id), other) == if other == id then None else Find(ts, other)
  {
    var i := IndexOf(ts, id);
    if i < |ts| {
      var us, j := Without(ts, id), IndexOf(ts, other);
      StillUnique(ts, i);
      if other == id {
        assert forall k :: 0 <= k < |us| ==> us[k] == ts[if k < i then k else k + 1];
        IndexIsFirst(us, id, |us|);
      } else {
        forall k | 0 <= k < |us| && k < (if j < i then j else j - 1)
          ensures us[k].id != other
        {
          assert us[k] == ts[if k < i then k else k + 1];
        }
        IndexIsFirst(us, other, if j < i then j else j - 1);
      }
    }
  }

  lemma StillUnique(ts: seq<TaskEntity>, i: nat)
    requires UniqueIds(ts) && i < |ts|
    ensures UniqueIds(ts[..i] + ts[i + 1..])
  {
    var us := ts[..i] + ts[i + 1..];
    forall j, k | 0 <= j < k < |us|
      ensures us[j].id != us[k].id
    {
      assert us[j] == ts[if j < i then j else j + 1] && us[k] == ts[if k < i then k else k + 1];
    }
  }

  // Adding and removing are those of the map; a refused add changes nothing.
  lemma AddRefinesMap(ts: seq<TaskEntity>, e: TaskEntity)
    requires UniqueIds(ts) && Find(ts, e.id).None?
    ensures UniqueIds(ts + [e]) && AsMap(ts + [e]) == AsMap(ts)[e.id := e]
  {
    var us := ts + [e];
    forall i, j | 0 <= i < j < |us|
      ensures us[i].id != us[j].id
    {
      assert us[i] == ts[i];
    }
    forall id
      ensures id in AsMap(us) <==> id in AsMap(ts)[e.id := e]
      ensures id in AsMap(us) ==> AsMap(us)[id] == AsMap(ts)[e.id := e][id]
    {
      FindIsLookup(us, id);
      FindIsLookup(ts, id);
      FindAppended(ts, e, id);
    }
  }

  lemma RemoveRefinesMap(ts: seq<TaskEntity>, id: TaskId)
    requires UniqueIds(ts)
    ensures UniqueIds(Without(ts, id)) && AsMap(Without(ts, id)) == AsMap(ts) - {id}
  {
    FindWithout(ts, id, id);
    var a, b := AsMap(Without(ts, id)), AsMap(ts) - {id};
    forall other
      ensures (other in a <==> other in b) && (other in a ==> a[other] == b[other])
    {
      LookupAfterRemove(ts, id, other);
    }
    SameMap(a, b);
  }

  lemma SameMap(a: map<TaskId, TaskEntity>, b: map<TaskId, TaskEntity>)
    requires forall k :: (k in a <==> k in b) && (k in a ==> a[k] == b[k])
    ensures a == b
  {
  }

  lemma LookupAfterRemove(ts: seq<TaskEntity>, id: TaskId, other: TaskId)
    requires UniqueIds(ts)
    ensures var us := Without(ts, id);
      && (other in AsMap(us) <==> other in AsMap(ts) && other != id)
      && (other in AsMap(us) ==> AsMap(us)[other] == AsMap(ts)[other])
  {
    FindIsLookup(Without(ts, id), other);
    FindIsLookup(ts, other);
    FindWithout(ts, id, other);
  }

  // ---- The store ----

  // A file, with every content ever written to it.
  class File {
    var content: Content
    ghost var written: seq<Content>

    constructor (content: Content)
      ensures this.content == content && written == []
    {
      this.content := content;
      this.written := [];
    }

    method Write(c: Content)
      modifies this
      ensures content == c && written == old(written) + [c]
    {
      content := c;
      written := written + [c];
    }
  }

  class FileTaskStore {
    const file: File
    var cached: seq<TaskEntity>

    // The cache holds what the file says, in whatever way the file says it.
    ghost predicate Valid()
      reads this, file
    {
      Parse(file.content) == Some(cached)
    }

    constructor (file: File)
      ensures this.file == file && cached == []
    {
      this.file := file;
      this.cached := [];
    }

    // Opening creates a missing file, and throws on one it cannot read.
    static method Open(file: File) returns (store: FileTaskStore, ok: bool)
      modifies file
      ensures fresh(store) && store.file == file
      ensures ok <==> old(file.content).Absent? || Parse(old(file.content)).Some?
      ensures ok ==> store.cached == if old(file.content).Absent? then [] else Parse(old(file.content)).value
      ensures ok ==> store.Valid()
      ensures file.written == old(file.written) + if old(file.content).Absent? then [Serialize([])] else []
      ensures file.content == if old(file.content).Absent? then Serialize([]) else old(file.content)
    {
      store := new FileTaskStore(file);
      if file.content.Absent? { store.Store(); }
      ok := store.Load();
      ParseSerialize([]);
    }

    method Load() returns (ok: bool)
      modifies this
      ensures ok <==> Parse(file.content).Some?
      ensures cached == if ok then Parse(file.content).value else old(cached)
    {
      var parsed := Parse(file.content);
      ok := parsed.Some?;
      if ok { cached := parsed.value; }
    }

    method Store()
      modifies file
      ensures file.content == Serialize(cached) && file.written == old(file.written) + [Serialize(cached)]
    {
      file.Write(Serialize(cached));
    }

    method FindIndex(id: TaskId) returns (i: nat)
      ensures i == IndexOf(cached, id)
    {
      i := 0;
      while i < |cached| && cached[i].id != id
        invariant i <= |cached|
        invariant i + IndexOf(cached[i..], id) == IndexOf(cached, id)
      {
        assert cached[i..][1..] == cached[i + 1..];
        i := i + 1;
      }
      assert i < |cached| ==> cached[i..][0] == cached[i];
    }

    method Exist(id: TaskId) returns (found: bool)
      ensures found <==> Find(cached, id).Some?
    {
      var i := FindIndex(id);
      found := i < |cached|;
    }

    method FindTask(id: TaskId) returns (t: Option<TaskEntity>)
      ensures t == Find(cached, id)
    {
      var i := FindIndex(id);
      t := if i < |cached| then Some(cached[i]) else None;
    }

    // False stands for the exception thrown when the id is taken.
    method Add(e: TaskEntity) returns (ok: bool)
      modifies this, file
      ensures ok <==> Find(old(cached), e.id).None?
      ensures ok ==> Valid() && cached == old(cached) + [e]
      ensures ok ==> file.content == Serialize(cached) && file.written == old(file.written) + [Serialize(cached)]
      ensures !ok ==> unchanged(this) && unchanged(file)
    {
      var i := FindIndex(e.id);
      if i < |cached| { return false; }
      cached := cached + [e];
      Store();
      ParseSerialize(cached);
      ok := Load();
    }

    // False stands for the exception thrown when there is no such id.
    method Remove(id: TaskId) returns (ok: bool)
      modifies this, file
      ensures ok <==> Find(old(cached), id).Some?
      ensures ok ==> Valid() && cached == Without(old(cached), id)
      ensures ok ==> file.content == Serialize(cached) && file.written == old(file.written) + [Serialize(cached)]
      ensures !ok ==> unchanged(this) && unchanged(file)
    {
      var i := FindIndex(id);
      if i >= |cached| { return false; }
      cached := cached[..i] + cached[i + 1..];
      Store();
      ParseSerialize(cached);
      ok := Load();
    }
  }

  // A store reopened on the file another left behind holds the same records.
  method Reopen(store: FileTaskStore) returns (again: FileTaskStore)
    requires store.Valid()
    modifies store.file
    ensures fresh(again) && again.file == store.file && again.Valid()
    ensures again.cached == store.cached && store.cached == old(store.cached)
    ensures store.file.content == old(store.file.content)
  {
    var ok;
    again, ok := FileTaskStore.Open(store.file);
  }
}
