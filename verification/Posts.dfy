/** Posts and their JSON form (src/post.cpp). */
module Posts {
  import opened Prelude

  datatype Post = Post(
    date: int,
    visualizations: int,
    id: string,
    from: string,
    nick: string,
    avatar: string,
    description: string,
    location: seq<int>,
    product: seq<int>,
    exDetails: seq<int>,
    inDetails: seq<nat>,
    rangeValues: seq<int>,
    images: seq<string>)

  datatype Json =
    | Number(n: int)
    | Text(s: string)
    | Numbers(ns: seq<int>)
    | Texts(ss: seq<string>)

  type Object = map<string, Json>

  function ToJson(p: Post): Object {
    map["date" := Number(p.date),
        "id" := Text(p.id),
        "visualizations" := Number(p.visualizations),
        "from" := Text(p.from),
        "nick" := Text(p.nick),
        "avatar" := Text(p.avatar),
        "description" := Text(p.description),
        "location" := Numbers(p.location),
        "product" := Numbers(p.product),
        "ex_details" := Numbers(p.exDetails),
        "in_details" := Numbers(p.inDetails),
        "range_values" := Numbers(p.rangeValues),
        "images" := Texts(p.images)]
  }

  /** The part of an address before its first question mark. */
  function Strip(s: string): (r: string)
    ensures r <= s && '?' !in r
    ensures |r| < |s| ==> s[|r|] == '?'
  {
    if s == [] || s[0] == '?' then [] else [s[0]] + Strip(s[1..])
  }

  function StripAll(ss: seq<string>): (rs: seq<string>)
    ensures |rs| == |ss| && forall i :: 0 <= i < |ss| ==> rs[i] == Strip(ss[i])
  {
    seq(|ss|, i requires 0 <= i < |ss| => Strip(ss[i]))
  }

  /** std::string::find. */
  method Find(s: string, c: char) returns (pos: nat)
    ensures pos <= |s| && c !in s[..pos]
    ensures pos < |s| ==> s[pos] == c
  {
    pos := 0;
    while pos < |s| && s[pos] != c
      invariant pos <= |s| && c !in s[..pos]
    {
      pos := pos + 1;
    }
  }

  /** The loop over the images in from_json. */
  method EraseQueries(images: seq<string>) returns (r: seq<string>)
    ensures r == StripAll(images)
  {
    r := images;
    for i := 0 to |images|
      invariant |r| == |images|
      invariant forall k :: 0 <= k < i ==> r[k] == Strip(images[k])
      invariant forall k :: i <= k < |images| ==> r[k] == images[k]
    {
      var pos := Find(r[i], '?');
      StripUnique(r[i], r[i][..pos]);
      if pos < |r[i]| {
        r := r[i := r[i][..pos]];
      }
    }
  }

  lemma {:induction false} StripUnique(s: string, r: string)
    requires r <= s && '?' !in r && (|r| < |s| ==> s[|r|] == '?')
    ensures r == Strip(s)
  {
    if r != [] {
      assert r[0] in r;
      StripUnique(s[1..], r[1..]);
    }
  }

  function GetNumber(j: Object, k: string): Option<int> {
    if k in j && j[k].Number? then Some(j[k].n) else None
  }

  function GetText(j: Object, k: string): Option<string> {
    if k in j && j[k].Text? then Some(j[k].s) else None
  }

  function GetNumbers(j: Object, k: string): Option<seq<int>> {
    if k in j && j[k].Numbers? then Some(j[k].ns) else None
  }

  function GetTexts(j: Object, k: string): Option<seq<string>> {
    if k in j && j[k].Texts? then Some(j[k].ss) else None
  }

  /** An optional number: zero when missing, an error when it is something else. */
  function GetOptionalNumber(j: Object, k: string): Option<int> {
    if k in j then GetNumber(j, k) else Some(0)
  }

  predicate AllNat(ns: seq<int>) {
    forall i :: 0 <= i < |ns| ==> ns[i] >= 0
  }

  function Nats(ns: seq<int>): (r: seq<nat>)
    requires AllNat(ns)
    ensures r == ns
  {
    seq(|ns|, i requires 0 <= i < |ns| => ns[i])
  }

  /** None stands for the exception that a missing or mistyped field raises. */
  function FromJson(j: Object): Option<Post> {
    var date, id, vis := GetNumber(j, "date"), GetText(j, "id"), GetOptionalNumber(j, "visualizations");
    var from, nick, avatar := GetText(j, "from"), GetText(j, "nick"), GetText(j, "avatar");
    var description := GetText(j, "description");
    var location, product := GetNumbers(j, "location"), GetNumbers(j, "product");
    var ex, ind, range := GetNumbers(j, "ex_details"), GetNumbers(j, "in_details"), GetNumbers(j, "range_values");
    var images := GetTexts(j, "images");
    if date.None? || id.None? || vis.None? || from.None? || nick.None? || avatar.None? || description.None?
       || location.None? || product.None? || ex.None? || ind.None? || range.None? || images.None?
       || !AllNat(ind.value)
    then None
    else Some(Post(date.value, vis.value, id.value, from.value, nick.value, avatar.value, description.value,
                   location.value, product.value, ex.value, Nats(ind.value), range.value, StripAll(images.value)))
  }

  function Normal(p: Post): Post {
    p.(images := StripAll(p.images))
  }

  lemma StripKeeps(s: string)
    ensures Strip(s) == s <==> '?' !in s
  {
    if '?' !in s {
      StripUnique(s, s);
    }
  }

  lemma NormalIdempotent(p: Post)
    ensures Normal(Normal(p)) == Normal(p)
  {
    forall i | 0 <= i < |p.images|
      ensures Strip(Strip(p.images[i])) == Strip(p.images[i])
    {
      StripUnique(Strip(p.images[i]), Strip(p.images[i]));
    }
    assert StripAll(StripAll(p.images)) == StripAll(p.images);
  }

  lemma NormalKeeps(p: Post)
    ensures Normal(p) == p <==> forall i :: 0 <= i < |p.images| ==> '?' !in p.images[i]
  {
    forall i | 0 <= i < |p.images|
      ensures Strip(p.images[i]) == p.images[i] <==> '?' !in p.images[i]
    {
      StripKeeps(p.images[i]);
    }
    assert StripAll(p.images) == p.images <==> forall i :: 0 <= i < |p.images| ==> Strip(p.images[i]) == p.images[i];
  }

  /** The object holds the fields of the post; visualizations of zero may be missing. */
  predicate Describes(j: Object, p: Post) {
    && {"date", "id", "from", "nick", "avatar", "description", "location", "product", "ex_details", "in_details",
        "range_values", "images"} <= j.Keys
    && j["date"] == Number(p.date) && j["id"] == Text(p.id) && j["from"] == Text(p.from)
    && j["nick"] == Text(p.nick) && j["avatar"] == Text(p.avatar) && j["description"] == Text(p.description)
    && j["location"] == Numbers(p.location) && j["product"] == Numbers(p.product)
    && j["ex_details"] == Numbers(p.exDetails) && j["in_details"] == Numbers(p.inDetails)
    && j["range_values"] == Numbers(p.rangeValues) && j["images"] == Texts(p.images)
    && (if "visualizations" in j then j["visualizations"] == Number(p.visualizations) else p.visualizations == 0)
  }

  lemma ReadsWhatIsDescribed(j: Object, p: Post)
    requires Describes(j, p)
    ensures FromJson(j) == Some(Normal(p))
  {
    hide Strip, StripAll;
    assert AllNat(p.inDetails);
  }

  lemma ReadsWhatWasWritten(p: Post)
    ensures FromJson(ToJson(p)) == Some(Normal(p))
  {
    assert Describes(ToJson(p), p);
    hide ToJson, FromJson, Describes;
    ReadsWhatIsDescribed(ToJson(p), p);
  }

  /** Writing and reading a post cuts its image addresses at the first question mark and changes nothing
      else, so it gives the post back exactly when no address has one; a second time nothing changes. */
  lemma RoundTrip(p: Post)
    ensures FromJson(ToJson(p)) == Some(Normal(p))
    ensures FromJson(ToJson(p)) == Some(p) <==> forall i :: 0 <= i < |p.images| ==> '?' !in p.images[i]
    ensures FromJson(ToJson(Normal(p))) == Some(Normal(p))
  {
    hide FromJson, ToJson, Strip, StripAll, Normal;
    ReadsWhatWasWritten(p);
    ReadsWhatWasWritten(Normal(p));
    NormalKeeps(p);
    NormalIdempotent(p);
  }

  lemma ReadImages(j: Object)
    requires FromJson(j).Some?
    ensures forall i :: 0 <= i < |FromJson(j).value.images| ==> '?' !in FromJson(j).value.images[i]
  {
  }

  /** Whatever has been read once survives being stored in Redis and read again. */
  lemma ReloadIsIdentity(j: Object)
    ensures FromJson(j).Some? ==> FromJson(ToJson(FromJson(j).value)) == FromJson(j)
  {
    if FromJson(j).Some? {
      var p := FromJson(j).value;
      ReadImages(j);
      NormalKeeps(p);
      hide FromJson, ToJson, Normal;
      ReadsWhatWasWritten(p);
    }
  }

  /** Every field is read under its own name, and all but the visualizations have to be there. */
  lemma FieldsAreRead(j: Object)
    requires FromJson(j).Some?
    ensures {"date", "id", "from", "nick", "avatar", "description", "location", "product", "ex_details", "in_details",
             "range_values", "images"} <= j.Keys
    ensures var p := FromJson(j).value;
      j["images"].Texts? && |j["images"].ss| == |p.images| && Describes(j, p.(images := j["images"].ss))
  {
    hide Strip;
  }

  /** A post without visualizations is read with none. */
  lemma MissingVisualizations(p: Post)
    ensures FromJson(ToJson(p) - {"visualizations"}) == Some(Normal(p).(visualizations := 0))
  {
    var j, q := ToJson(p) - {"visualizations"}, p.(visualizations := 0);
    assert Describes(j, q);
    hide ToJson, FromJson, Describes;
    ReadsWhatIsDescribed(j, q);
  }
}
