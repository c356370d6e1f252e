/**
 * `LSSTSubjectGenerator`: a two-level iterator that walks the object ids, fetches each
 * object from Lasair, and turns every image-URL group into one subject built by the
 * configured media generators. The Lasair client is a function from object id to the
 * fetched object; a subject is its ordered list of `(payload, MIME type)` locations.
 */
module SubjectGenerator {
  import opened Wrappers
  import opened Photometry
  import opened Locations

  type ObjectId = string

  /** What `lasair.object(obj_id, lasair_added=True)` returns, reduced to the keys the core reads. */
  datatype LasairObject = LasairObject(imageUrls: seq<UrlGroup>, diaSourcesList: seq<Record>)

  /** What one `__next__` call does: return a subject, end the iteration, or raise. */
  datatype Step = Emit(subject: seq<Location>) | Stop | Raise(error: GeneratorError)

  datatype GeneratorError =
    | MissingDiaSourceId                   // `next_urls["diaSourceId"]` on a group without that key
    | RenderError(error: LocationError)    // raised by a media generator

  /** A group together with the photometry handed to the media generators with it. */
  datatype Draw = Draw(group: UrlGroup, photometry: seq<Record>)

  /** The photometry for a group: the object's records with the group's detection id. */
  function PhotometryFor(rs: seq<Record>, g: UrlGroup): seq<Record>
  {
    if g.diaSourceId.Some? then Matching(rs, g.diaSourceId.value) else []
  }

  /**
   * The loop of `LSSTSubjectGenerator.generate` over any renderer: one location per
   * media generator, in configured order; the first generator that raises aborts.
   */
  function RenderAll(gens: seq<MediaGenerator>, render: MediaGenerator -> Result<Location, LocationError>)
    : (r: Result<seq<Location>, LocationError>)
    ensures r.Ok? <==> forall i :: 0 <= i < |gens| ==> render(gens[i]).Ok?
    ensures r.Ok? ==> |r.value| == |gens| && forall i :: 0 <= i < |gens| ==> render(gens[i]) == Ok(r.value[i])
    ensures r.Err? ==>
              exists i :: (0 <= i < |gens| && render(gens[i]) == Err(r.error) &&
                           forall j :: 0 <= j < i ==> render(gens[j]).Ok?)
  {
    if gens == [] then Ok([])
    else
      assert forall i :: 1 <= i < |gens| ==> gens[i] == gens[1..][i - 1];
      match render(gens[0])
      case Err(e) => assert render(gens[0]) == Err(e); Err(e)
      case Ok(location) =>
        match RenderAll(gens[1..], render)
        case Err(e) =>
          assert exists i :: (0 <= i < |gens| - 1 && render(gens[1..][i]) == Err(e) &&
                              forall j :: 0 <= j < i ==> render(gens[1..][j]).Ok?);
          var i :| 0 <= i < |gens| - 1 && render(gens[1..][i]) == Err(e) &&
                   forall j :: 0 <= j < i ==> render(gens[1..][j]).Ok?;
          assert render(gens[i + 1]) == Err(e);
          assert forall j :: 0 <= j < i + 1 ==> render(gens[j]).Ok?;
          Err(e)
        case Ok(rest) => Ok([location] + rest)
  }

  /**
   * `LSSTSubjectGenerator.generate`: one location per media generator, in configured
   * order, each carrying its generator's MIME type; the first generator that raises
   * aborts the subject with that generator's error.
   */
  function Generate(gens: seq<MediaGenerator>, media: Media, urls: UrlGroup, photometry: seq<Record>)
    : (r: Result<seq<Location>, LocationError>)
    ensures r.Ok? <==> forall i :: 0 <= i < |gens| ==> AsFile(gens[i], media, urls, photometry).Ok?
    ensures r.Ok? ==> |r.value| == |gens|
    ensures r.Ok? ==> forall i :: 0 <= i < |gens| ==>
              Ok(r.value[i]) == AsFile(gens[i], media, urls, photometry) && r.value[i].mimeType == MimeType(gens[i])
    ensures r.Err? ==>
              exists i :: (0 <= i < |gens| && AsFile(gens[i], media, urls, photometry) == Err(r.error) &&
                           forall j :: 0 <= j < i ==> AsFile(gens[j], media, urls, photometry).Ok?)
  {
    RenderAll(gens, g => AsFile(g, media, urls, photometry))
  }

  /**
   * What `__next__` returns once it has drawn the group of `d`: a KeyError for a group
   * without `diaSourceId`, else the subject `generate` builds or the error it raises.
   * Drawing a group never ends the iteration.
   */
  function Outcome(gens: seq<MediaGenerator>, media: Media, d: Draw): (r: Step)
    ensures !r.Stop?
    ensures r == Raise(MissingDiaSourceId) <==> d.group.diaSourceId.None?
    ensures r.Emit? <==> d.group.diaSourceId.Some? && Generate(gens, media, d.group, d.photometry).Ok?
    ensures r.Emit? ==> |r.subject| == |gens| &&
                        forall i :: 0 <= i < |gens| ==> r.subject[i].mimeType == MimeType(gens[i])
    ensures r.Raise? && r.error.RenderError? ==>
              d.group.diaSourceId.Some? && Generate(gens, media, d.group, d.photometry) == Err(r.error.error)
  {
    if d.group.diaSourceId.None? then Raise(MissingDiaSourceId)
    else
      match Generate(gens, media, d.group, d.photometry)
      case Ok(subject) => Emit(subject)
      case Err(e) => Raise(RenderError(e))
  }

  /** The draws for the groups `gs` of an object whose photometry is `rs`. */
  function Draws(gs: seq<UrlGroup>, rs: seq<Record>): (ds: seq<Draw>)
    ensures |ds| == |gs|
  {
    seq(|gs|, i requires 0 <= i < |gs| => Draw(gs[i], PhotometryFor(rs, gs[i])))
  }

  /** Every group of every object, in object order and then in group order. */
  function Flatten(lasair: ObjectId -> LasairObject, ids: seq<ObjectId>): seq<Draw>
  {
    if ids == [] then []
    else Draws(lasair(ids[0]).imageUrls, lasair(ids[0]).diaSourcesList) + Flatten(lasair, ids[1..])
  }

  /**
   * What the iterator yields from the ids `ids` until it signals the end: the groups in
   * object order, stopping at the first object without groups.
   */
  function UntilEmpty(lasair: ObjectId -> LasairObject, ids: seq<ObjectId>): seq<Draw>
  {
    if ids == [] || lasair(ids[0]).imageUrls == [] then []
    else Draws(lasair(ids[0]).imageUrls, lasair(ids[0]).diaSourcesList) + UntilEmpty(lasair, ids[1..])
  }

  /** The position of the first id whose object has no image groups, or `|ids|`. */
  function FirstEmpty(lasair: ObjectId -> LasairObject, ids: seq<ObjectId>): (k: nat)
    ensures k <= |ids|
    ensures k < |ids| ==> lasair(ids[k]).imageUrls == []
    ensures forall j :: 0 <= j < k ==> lasair(ids[j]).imageUrls != []
  {
    if ids == [] then 0
    else if lasair(ids[0]).imageUrls == [] then 0
    else 1 + FirstEmpty(lasair, ids[1..])
  }

  /** The total number of image groups of the objects `ids`. */
  function GroupCount(lasair: ObjectId -> LasairObject, ids: seq<ObjectId>): nat
  {
    if ids == [] then 0 else |lasair(ids[0]).imageUrls| + GroupCount(lasair, ids[1..])
  }

  /**
   * The early end: the iteration yields exactly the groups of the objects before the
   * first object without groups; the later objects are never reached.
   */
  lemma {:induction false} UntilEmptyIsPrefixFlatten(lasair: ObjectId -> LasairObject, ids: seq<ObjectId>)
    ensures UntilEmpty(lasair, ids) == Flatten(lasair, ids[..FirstEmpty(lasair, ids)])
  {
    if ids != [] && lasair(ids[0]).imageUrls != [] {
      UntilEmptyIsPrefixFlatten(lasair, ids[1..]);
      var k := FirstEmpty(lasair, ids);
      assert ids[..k][1..] == ids[1..][..k - 1];
    }
  }

  /** One draw per image group: the flattened sequence has the sum of the group counts. */
  lemma {:induction false} FlattenLength(lasair: ObjectId -> LasairObject, ids: seq<ObjectId>)
    ensures |Flatten(lasair, ids)| == GroupCount(lasair, ids)
  {
    if ids != [] {
      FlattenLength(lasair, ids[1..]);
    }
  }

  /** When every object has at least one group, the iteration yields every group of every object. */
  lemma {:induction false} NoEmptyObjectYieldsAll(lasair: ObjectId -> LasairObject, ids: seq<ObjectId>)
    requires forall j :: 0 <= j < |ids| ==> lasair(ids[j]).imageUrls != []
    ensures UntilEmpty(lasair, ids) == Flatten(lasair, ids)
    ensures |UntilEmpty(lasair, ids)| == GroupCount(lasair, ids)
  {
    UntilEmptyIsPrefixFlatten(lasair, ids);
    assert ids[..FirstEmpty(lasair, ids)] == ids;
    FlattenLength(lasair, ids);
  }

  lemma DrawsCons(gs: seq<UrlGroup>, rs: seq<Record>)
    requires gs != []
    ensures Draws(gs, rs) == [Draw(gs[0], PhotometryFor(rs, gs[0]))] + Draws(gs[1..], rs)
  {
  }

  /** `rest` is what an iterator over `all` has left. */
  ghost predicate IsSuffix<T>(rest: seq<T>, all: seq<T>)
  {
    |rest| <= |all| && rest == all[|all| - |rest|..]
  }

  class LSSTSubjectGenerator {
    /** `self.lasair`, the broker client. */
    const lasair: ObjectId -> LasairObject
    /** `self.media_generators` */
    const mediaGenerators: seq<MediaGenerator>
    /** The FITS and plotting collaborators the media generators call. */
    const media: Media

    /** The ids `self.obj_ids` has not produced yet. */
    var objIds: seq<ObjectId>
    /** The groups `self.obj_image_urls` has not produced yet; `None` before the first fetch. */
    var objImageUrls: Option<seq<UrlGroup>>
    /** `self.obj_photometry`, the `defaultdict(list)` of the current object's records by detection id. */
    var objPhotometry: map<SourceId, seq<Record>>
    /** `self.current_obj` */
    var currentObj: Option<LasairObject>

    ghost predicate Valid()
      reads this
    {
      && (objImageUrls.Some? ==> currentObj.Some? && IsSuffix(objImageUrls.value, currentObj.value.imageUrls))
      && (currentObj.Some? ==>
            forall id :: Lookup(objPhotometry, id) == Matching(currentObj.value.diaSourcesList, id))
    }

    /** `LSSTSubjectGenerator.__init__` with a ready Lasair client; nothing is fetched yet. */
    constructor (objIds: seq<ObjectId>, lasair: ObjectId -> LasairObject, media: Media,
                 mediaGenerators: seq<MediaGenerator> := DEFAULT_MEDIA_GENERATORS)
      ensures Valid()
      ensures this.objIds == objIds && this.lasair == lasair && this.media == media
      ensures this.mediaGenerators == mediaGenerators
      ensures objImageUrls == None && currentObj == None && objPhotometry == map[]
    {
      this.lasair := lasair;
      this.objIds := objIds;
      this.objImageUrls := None;
      this.objPhotometry := map[];  // None in the source; never read before the first fetch
      this.currentObj := None;
      this.mediaGenerators := mediaGenerators;
      this.media := media;
    }

    /**
     * The draws the iterator makes from this state until it signals the end: the rest
     * of the current object's groups, then the objects still to be fetched.
     */
    ghost function Pending(): seq<Draw>
      reads this
      requires Valid()
    {
      (if objImageUrls.Some? then Draws(objImageUrls.value, currentObj.value.diaSourcesList) else [])
      + UntilEmpty(lasair, objIds)
    }

    /** `_parse_obj`: fetch one object, restart the group iterator, regroup the photometry. */
    method ParseObj(objId: ObjectId)
      modifies this
      ensures Valid()
      ensures currentObj == Some(lasair(objId))
      ensures objImageUrls == Some(lasair(objId).imageUrls)
      ensures objPhotometry == Grouped(lasair(objId).diaSourcesList)
      ensures objIds == old(objIds)
    {
      var obj := lasair(objId);
      currentObj := Some(obj);
      objImageUrls := Some(obj.imageUrls);
      objPhotometry := BuildPhotometry(obj.diaSourcesList);
      assert obj.imageUrls[|obj.imageUrls| - |obj.imageUrls|..] == obj.imageUrls;
    }

    /**
     * The draw shared by every branch of `__next__`: take the next group, look its
     * photometry up in the `defaultdict` (which inserts a missing id), and generate.
     */
    method DrawGroup() returns (step: Step)
      requires Valid() && objImageUrls.Some? && objImageUrls.value != []
      modifies this
      ensures Valid()
      ensures objImageUrls == Some(old(objImageUrls.value)[1..])
      ensures objIds == old(objIds) && currentObj == old(currentObj)
      ensures var g := old(objImageUrls.value)[0];
              objPhotometry == if g.diaSourceId.Some? then LookupInsert(old(objPhotometry), g.diaSourceId.value)
                               else old(objPhotometry)
      ensures step == Outcome(mediaGenerators, media,
                              Draw(old(objImageUrls.value)[0],
                                   PhotometryFor(currentObj.value.diaSourcesList, old(objImageUrls.value)[0])))
      ensures old(Pending()) != [] && Pending() == old(Pending())[1..] &&
              step == Outcome(mediaGenerators, media, old(Pending())[0])
    {
      DrawsCons(objImageUrls.value, currentObj.value.diaSourcesList);
      var urls := objImageUrls.value[0];
      objImageUrls := Some(objImageUrls.value[1..]);
      if urls.diaSourceId.None? {
        return Raise(MissingDiaSourceId);
      }
      var photometry := Lookup(objPhotometry, urls.diaSourceId.value);
      objPhotometry := LookupInsert(objPhotometry, urls.diaSourceId.value);
      step := match Generate(mediaGenerators, media, urls, photometry)
        case Ok(subject) => Emit(subject)
        case Err(e) => Raise(RenderError(e));
    }

    /**
     * `__next__`: draw the next group of the current object; when there is none (or on
     * the first call) fetch exactly one further object and draw its first group. Running
     * out of ids, or fetching an object without groups, ends the iteration.
     */
    method Next() returns (step: Step)
      requires Valid()
      modifies this
      ensures Valid()
      ensures step.Stop? ==> old(Pending()) == []
      ensures !step.Stop? ==> old(Pending()) != [] && Pending() == old(Pending())[1..] &&
                              step == Outcome(mediaGenerators, media, old(Pending())[0])
      // A group is left: it is drawn and nothing is fetched.
      ensures old(objImageUrls).Some? && old(objImageUrls).value != [] ==>
                objIds == old(objIds) && currentObj == old(currentObj) && !step.Stop? &&
                objImageUrls == Some(old(objImageUrls).value[1..])
      // No group left and no id left: the iteration ends and nothing changes.
      ensures (old(objImageUrls).None? || old(objImageUrls).value == []) && old(objIds) == [] ==>
                step.Stop? && objIds == [] && objImageUrls == old(objImageUrls) &&
                currentObj == old(currentObj) && objPhotometry == old(objPhotometry)
      // No group left: exactly one object is fetched; if it has no groups the iteration ends.
      ensures (old(objImageUrls).None? || old(objImageUrls).value == []) && old(objIds) != [] ==>
                var obj := lasair(old(objIds)[0]);
                objIds == old(objIds)[1..] && currentObj == Some(obj) &&
                (obj.imageUrls == [] <==> step.Stop?) &&
                (obj.imageUrls == [] ==> objImageUrls == Some([]) && objPhotometry == Grouped(obj.diaSourcesList)) &&
                (obj.imageUrls != [] ==> objImageUrls == Some(obj.imageUrls[1..]))
    {
      if objImageUrls.Some? && objImageUrls.value != [] {
        step := DrawGroup();
      } else {
        if objIds == [] {
          return Stop;  // next(self.obj_ids) raises StopIteration
        }
        var objId := objIds[0];
        objIds := objIds[1..];
        ghost var later := UntilEmpty(lasair, objIds);
        ParseObj(objId);
        if objImageUrls.value == [] {
          return Stop;  // next(self.obj_image_urls) raises StopIteration
        }
        assert Pending() == Draws(objImageUrls.value, currentObj.value.diaSourcesList) + later == old(Pending());
        step := DrawGroup();
      }
    }

    /**
     * Iterating the generator (`for subject in generator`): call `__next__` until it ends
     * the iteration or raises. The subjects are those of the pending draws, in order.
     */
    method Drain() returns (subjects: seq<seq<Location>>, last: Step)
      requires Valid()
      modifies this
      ensures Valid()
      ensures !last.Emit?
      ensures |subjects| <= |old(Pending())|
      ensures forall i :: 0 <= i < |subjects| ==>
                Outcome(mediaGenerators, media, old(Pending())[i]) == Emit(subjects[i])
      ensures last.Stop? ==> |subjects| == |old(Pending())|
      ensures last.Raise? ==> |subjects| < |old(Pending())| &&
                              Outcome(mediaGenerators, media, old(Pending())[|subjects|]) == last
    {
      ghost var expected := Pending();
      subjects := [];
      while true
        invariant Valid()
        invariant |subjects| <= |expected|
        invariant Pending() == expected[|subjects|..]
        invariant forall i :: 0 <= i < |subjects| ==>
                    Outcome(mediaGenerators, media, expected[i]) == Emit(subjects[i])
        decreases |Pending()|
      {
        var step := Next();
        if !step.Emit? {
          last := step;
          return;
        }
        subjects := subjects + [step.subject];
      }
    }
  }

  /**
   * A group whose three cutouts all load gives, under the default media generators,
   * a subject of three PNG locations.
   */
  lemma LoadableGroupEmits(media: Media, d: Draw)
    requires d.group.diaSourceId.Some?
    requires forall k :: k in TRIPLET_KEYS ==> FitsData(d.group, k, media.openFits).Ok?
    ensures var step := Outcome(DEFAULT_MEDIA_GENERATORS, media, d);
            step.Emit? && |step.subject| == 3 &&
            forall j :: 0 <= j < 3 ==> step.subject[j].mimeType == "image/png"
  {
    var gens := DEFAULT_MEDIA_GENERATORS;
    assert FitsData(d.group, PanelKeys(gens[0])[0], media.openFits).Ok?;
    assert FitsData(d.group, PanelKeys(gens[1])[0], media.openFits).Ok?;
    assert FitsData(d.group, PanelKeys(gens[2])[0], media.openFits).Ok?;
    assert forall i :: 0 <= i < |gens| ==> AsFile(gens[i], media, d.group, d.photometry).Ok?;
  }

  /**
   * Two objects with two and one image groups, all of whose cutouts load, give exactly
   * three subjects under the default media generators, each with three PNG locations.
   */
  lemma TwoObjectsThreeSubjects(lasair: ObjectId -> LasairObject, media: Media,
                                a: UrlGroup, b: UrlGroup, c: UrlGroup, first: seq<Record>, second: seq<Record>)
    requires lasair("first") == LasairObject([a, b], first)
    requires lasair("second") == LasairObject([c], second)
    requires forall g, k :: g in [a, b, c] && k in TRIPLET_KEYS ==>
               g.diaSourceId.Some? && FitsData(g, k, media.openFits).Ok?
    ensures |UntilEmpty(lasair, ["first", "second"])| == 3
    ensures forall i :: 0 <= i < 3 ==>
              var step := Outcome(DEFAULT_MEDIA_GENERATORS, media, UntilEmpty(lasair, ["first", "second"])[i]);
              step.Emit? && |step.subject| == 3 &&
              forall j :: 0 <= j < 3 ==> step.subject[j].mimeType == "image/png"
  {
    var ds := UntilEmpty(lasair, ["first", "second"]);
    assert ["first", "second"][1..] == ["second"];
    assert ["second"][1..] == [];
    assert ds == Draws([a, b], first) + Draws([c], second);
    assert ds[0].group == a && ds[1].group == b && ds[2].group == c;
    forall i | 0 <= i < 3
      ensures var step := Outcome(DEFAULT_MEDIA_GENERATORS, media, ds[i]);
              step.Emit? && |step.subject| == 3 &&
              forall j :: 0 <= j < 3 ==> step.subject[j].mimeType == "image/png"
    {
      assert ds[i].group in [a, b, c] && "Science" in TRIPLET_KEYS;
      LoadableGroupEmits(media, ds[i]);
    }
  }
}
