/**
  The achievements collection of src/lib/firebase/achievements.ts. A stored
  document is a map from field name to value, because an update spreads the
  caller's object into the write as it is. The upload of an image file to
  storage is outside the model: its outcome (the download URL, or the
  failure) is passed in.
 */
module Achievements {
  import opened Common

  /** A field value as JavaScript hands it to the store. */
  datatype Value =
    | Undefined
    | Null
    | Str(s: string)
    | Stamp(t: Timestamp)
    | FileObject(name: string)

  type Fields = map<string, Value>

  /** The values the document store accepts: `undefined` and `File` objects are refused. */
  predicate Storable(v: Value)
  {
    v.Null? || v.Str? || v.Stamp?
  }

  predicate StorableFields(f: Fields)
  {
    forall k :: k in f ==> Storable(f[k])
  }

  const UnsupportedValue := "Unsupported field value"
  const NoDocument := "No document to update"

  datatype AchievementDoc = AchievementDoc(id: Id, fields: Fields)

  /** The payload of createAchievement; `None` is an absent (or empty) property. */
  datatype AchievementInput = AchievementInput(
    title: string,
    description: Option<string>,
    imageUrl: Option<string>,
    date: Option<string>,
    imageFile: Option<string>)

  /** `userId || null`. */
  function UserOrNull(userId: Option<string>): (v: Value)
    ensures v.Str? <==> userId.Some? && userId.value != ""
    ensures v.Str? ==> v.s == userId.value
  {
    if userId.Some? && userId.value != "" then Str(userId.value) else Null
  }

  /** The document createAchievement writes, given the image URL it settled on. */
  function NewAchievement(input: AchievementInput, imageUrl: string, userId: Option<string>, t: Timestamp): Fields
  {
    map[
      "title" := Str(input.title),
      "description" := Str(OptOrElse(input.description, "")),
      "imageUrl" := Str(imageUrl),
      "date" := Str(OptOrElse(input.date, "")),
      "createdAt" := Stamp(t),
      "updatedAt" := Stamp(t),
      "createdBy" := UserOrNull(userId),
      "updatedBy" := UserOrNull(userId)]
  }

  /** `updates.imageFile` is truthy. */
  predicate CarriesFile(updates: Fields)
  {
    "imageFile" in updates && updates["imageFile"].FileObject?
  }

  /**
    The update object as the code builds it: the caller's properties, the
    stamp and the author, the uploaded URL when a file came with the update,
    and then every `undefined` entry deleted. The `imageFile` property itself
    stays in.
   */
  function WrittenUpdate(updates: Fields, userId: Option<string>, t: Timestamp, url: string): Fields
  {
    var data := updates["updatedAt" := Stamp(t)]["updatedBy" := UserOrNull(userId)];
    var withUrl := if CarriesFile(updates) then data["imageUrl" := Str(url)] else data;
    map k | k in withUrl && !withUrl[k].Undefined? :: withUrl[k]
  }

  /** The same update with the `imageFile` property left out before it is written. */
  function CorrectedUpdate(updates: Fields, userId: Option<string>, t: Timestamp, url: string): (r: Fields)
    ensures "imageFile" !in r
  {
    WrittenUpdate(updates, userId, t, url) - {"imageFile"}
  }

  /**
    As written, an update that carries an image file keeps the file object in
    the data it sends, and the store refuses such a value.
   */
  lemma WrittenUpdateWithFileRefused(updates: Fields, userId: Option<string>, t: Timestamp, url: string)
    requires CarriesFile(updates)
    ensures !StorableFields(WrittenUpdate(updates, userId, t, url))
  {
    assert WrittenUpdate(updates, userId, t, url)["imageFile"] == updates["imageFile"];
  }

  /** The page's own edit payload: title, description and date, plus either a file or a URL. */
  lemma WrittenUpdateFromEditPage(title: string, description: string, date: string, file: string, userId: Option<string>, t: Timestamp, url: string)
    ensures var updates := map["title" := Str(title), "description" := Str(description), "date" := Str(date), "imageFile" := FileObject(file)];
      !StorableFields(WrittenUpdate(updates, userId, t, url))
  {
    var updates := map["title" := Str(title), "description" := Str(description), "date" := Str(date), "imageFile" := FileObject(file)];
    WrittenUpdateWithFileRefused(updates, userId, t, url);
  }

  /**
    The corrected update is always storable when the caller's other properties
    are plain values or `undefined`; a carried file becomes the new imageUrl,
    the stamp and author are set, and no `undefined` entry survives.
   */
  lemma CorrectedUpdateMeaning(updates: Fields, userId: Option<string>, t: Timestamp, url: string)
    requires forall k :: k in updates && k != "imageFile" ==> Storable(updates[k]) || updates[k].Undefined?
    ensures var r := CorrectedUpdate(updates, userId, t, url);
      && StorableFields(r)
      && r["updatedAt"] == Stamp(t) && r["updatedBy"] == UserOrNull(userId)
      && (CarriesFile(updates) ==> r["imageUrl"] == Str(url))
      && (forall k :: k in updates && k !in {"imageFile", "updatedAt", "updatedBy", "imageUrl"} ==>
            (k in r <==> !updates[k].Undefined?) && (k in r ==> r[k] == updates[k]))
  {
  }

  class AchievementStore {
    var docs: map<Id, Fields>
    var nextId: Id
    /** The value the next `serverTimestamp()` resolves to. */
    var now: Timestamp

    /** Every stored document holds storable values only, under an id already issued. */
    ghost predicate Valid()
      reads this
    {
      forall id :: id in docs ==> id < nextId && StorableFields(docs[id])
    }

    constructor ()
      ensures Valid() && docs == map[]
    {
      docs := map[];
      nextId := 0;
      now := 0;
    }

    /**
      `getAchievements()`: the documents ordered by `createdAt`, newest first.
      Only documents whose `createdAt` is a server timestamp take part.
     */
    method GetAchievements() returns (r: seq<AchievementDoc>)
      ensures multiset(r) == multiset(StampedDocs(docs, nextId))
      ensures DescendingBy(r, CreatedAt)
    {
      var listed: seq<AchievementDoc> := [];
      var n := 0;
      while n < nextId
        invariant n <= nextId
        invariant listed == StampedDocs(docs, n)
      {
        if n in docs && "createdAt" in docs[n] && docs[n]["createdAt"].Stamp? {
          listed := listed + [AchievementDoc(n, docs[n])];
        }
        n := n + 1;
      }
      var a := new AchievementDoc[|listed|](k requires 0 <= k < |listed| => listed[k]);
      assert a[..] == listed;
      SortDescendingBy(a, CreatedAt);
      r := a[..];
    }

    /**
      `createAchievement(payload, userId)`: an attached file is uploaded and its
      URL wins over `payload.imageUrl`; a failed upload writes nothing.
     */
    method CreateAchievement(input: AchievementInput, userId: Option<string>, upload: Result<string>)
      returns (r: Result<Id>)
      requires Valid()
      modifies this
      ensures Valid()
      ensures input.imageFile.Some? && upload.Err? ==> r == Err(upload.msg) && docs == old(docs)
      ensures !(input.imageFile.Some? && upload.Err?) ==>
        && r.Ok? && r.value !in old(docs)
        && docs == old(docs)[r.value := NewAchievement(input,
             if input.imageFile.Some? then upload.value else OptOrElse(input.imageUrl, ""), userId, old(now))]
    {
      var imageUrl := OptOrElse(input.imageUrl, "");
      if input.imageFile.Some? {
        if upload.Err? {
          return Err(upload.msg);
        }
        imageUrl := upload.value;
      }
      var id := nextId;
      docs := docs[id := NewAchievement(input, imageUrl, userId, now)];
      nextId := nextId + 1;
      now := now + 1;
      r := Ok(id);
    }

    /**
      `updateAchievement(id, updates, userId)`, writing the corrected update:
      the fields it carries replace the stored ones and every other stored
      field is kept. A failed upload, data the client refuses (checked before
      anything is sent) or a missing document writes nothing.
     */
    method UpdateAchievement(id: Id, updates: Fields, userId: Option<string>, upload: Result<string>)
      returns (r: Result<()>)
      requires Valid()
      modifies this
      ensures Valid()
      ensures CarriesFile(updates) && upload.Err? ==> r == Err(upload.msg) && docs == old(docs)
      ensures !(CarriesFile(updates) && upload.Err?) ==>
        var data := CorrectedUpdate(updates, userId, old(now), if CarriesFile(updates) then upload.value else "");
        if !StorableFields(data) then r == Err(UnsupportedValue) && docs == old(docs)
        else if id !in old(docs) then r == Err(NoDocument) && docs == old(docs)
        else r.Ok? && docs == old(docs)[id := old(docs)[id] + data]
    {
      var url := "";
      var updateData := updates["updatedAt" := Stamp(now)]["updatedBy" := UserOrNull(userId)];
      if CarriesFile(updates) {
        if upload.Err? {
          return Err(upload.msg);
        }
        url := upload.value;
        updateData := updateData["imageUrl" := Str(url)];
      }
      var data := StripUndefined(updateData);
      data := data - {"imageFile"};
      assert data == CorrectedUpdate(updates, userId, now, url);
      if !StorableFields(data) {
        return Err(UnsupportedValue);
      }
      if id !in docs {
        return Err(NoDocument);
      }
      docs := docs[id := docs[id] + data];
      now := now + 1;
      r := Ok(());
    }

    /** `deleteAchievement(id)`: only that document goes; deleting a missing one is not an error. */
    method DeleteAchievement(id: Id)
      requires Valid()
      modifies this
      ensures Valid()
      ensures docs == old(docs) - {id}
    {
      docs := docs - {id};
    }
  }

  /** `Object.keys(data).forEach(k => data[k] === undefined && delete data[k])`. */
  method StripUndefined(data: Fields) returns (r: Fields)
    ensures r.Keys <= data.Keys
    ensures forall k :: k in data ==> (k in r <==> !data[k].Undefined?)
    ensures forall k :: k in r ==> r[k] == data[k]
  {
    r := data;
    var keys := data.Keys;
    while keys != {}
      invariant keys <= data.Keys
      invariant r.Keys <= data.Keys
      invariant forall k :: k in data && k !in keys ==> (k in r <==> !data[k].Undefined?)
      invariant forall k :: k in keys ==> k in r
      invariant forall k :: k in r ==> r[k] == data[k]
      decreases keys
    {
      var k :| k in keys;
      if r[k].Undefined? {
        r := r - {k};
      }
      keys := keys - {k};
    }
  }

  /** The sort key of the listing: the `createdAt` stamp, 0 where there is none. */
  function CreatedAt(d: AchievementDoc): int
  {
    if "createdAt" in d.fields && d.fields["createdAt"].Stamp? then d.fields["createdAt"].t else 0
  }

  /** The documents below id `n` whose `createdAt` is a stamp, in id order. */
  function StampedDocs(docs: map<Id, Fields>, n: nat): (r: seq<AchievementDoc>)
    ensures forall i :: 0 <= i < |r| ==>
      r[i].id < n && r[i].id in docs && r[i].fields == docs[r[i].id] && "createdAt" in r[i].fields && r[i].fields["createdAt"].Stamp?
  {
    if n == 0 then []
    else
      var rest := StampedDocs(docs, n - 1);
      var id := n - 1;
      if id in docs && "createdAt" in docs[id] && docs[id]["createdAt"].Stamp? then rest + [AchievementDoc(id, docs[id])] else rest
  }

  /** Every stored document with a stamp appears in the listing. */
  lemma {:induction false} StampedDocsComplete(docs: map<Id, Fields>, n: nat)
    ensures forall id :: id < n && id in docs && "createdAt" in docs[id] && docs[id]["createdAt"].Stamp? ==>
      AchievementDoc(id, docs[id]) in StampedDocs(docs, n)
  {
    if n > 0 {
      StampedDocsComplete(docs, n - 1);
    }
  }
}
