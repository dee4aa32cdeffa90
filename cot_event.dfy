/** The Cursor-on-Target event that gen_cot in bot.py builds: a marker for
    an enemy ground unit at a given latitude and longitude, built as an
    xml.etree.ElementTree element tree. */
module CotEvent {

  datatype Option<T> = None | Some(value: T)

  /** An ElementTree element: its tag, its attributes, its sub-elements in
      document order and its text (None until something sets it). */
  datatype Element = Element(tag: string, attrib: map<string, string>, children: seq<Element>, text: Option<string>)

  /** Element.get(key): the attribute's value, if it is set. */
  function Get(e: Element, key: string): (v: Option<string>)
    ensures v.Some? <==> key in e.attrib
    ensures v.Some? ==> v.value == e.attrib[key]
  {
    if key in e.attrib then Some(e.attrib[key]) else None
  }

  /** Element.find(tag): the first direct sub-element with that tag. */
  function Find(e: Element, tag: string): (c: Option<Element>)
    ensures c.Some? ==> c.value in e.children && c.value.tag == tag
    ensures c.None? ==> forall k :: 0 <= k < |e.children| ==> e.children[k].tag != tag
    ensures c.Some? ==> exists k :: 0 <= k < |e.children| && e.children[k] == c.value &&
                                    forall j :: 0 <= j < k ==> e.children[j].tag != tag
  {
    FindIn(e.children, tag)
  }

  function FindIn(children: seq<Element>, tag: string): (c: Option<Element>)
    ensures c.Some? ==> c.value in children && c.value.tag == tag
    ensures c.None? ==> forall k :: 0 <= k < |children| ==> children[k].tag != tag
    ensures c.Some? ==> exists k :: 0 <= k < |children| && children[k] == c.value &&
                                    forall j :: 0 <= j < k ==> children[j].tag != tag
    ensures children != [] && children[0].tag == tag ==> c == Some(children[0])
    decreases |children|
  {
    if children == [] then None
    else if children[0].tag == tag then Some(children[0])
    else
      var c := FindIn(children[1..], tag);
      if c.Some? then
        var k :| 0 <= k < |children| - 1 && children[1..][k] == c.value &&
                 forall j :: 0 <= j < k ==> children[1..][j].tag != tag;
        assert children[k + 1] == c.value;
        assert forall j :: 0 <= j < k + 1 ==> children[j].tag != tag by {
          forall j | 0 <= j < k + 1 ensures children[j].tag != tag {
            if j > 0 { assert children[j] == children[1..][j - 1]; }
          }
        }
        c
      else c
  }

  // ------------------------------------------------------------------
  // Time stamps. pytak.cot_time(n) reads the clock and formats the reading,
  // moved n seconds ahead when n is given, as an ISO-8601 UTC text; the
  // formatting is a parameter here and the readings are inputs.

  /** A clock reading, in microseconds. */
  type Instant = int

  const MICROS_PER_SECOND: int := 1000000

  /** How long after the event is sent a consumer should treat it as stale. */
  const STALE_SECONDS: int := 300

  /** pytak.cot_time(offsetSeconds) evaluated at clock reading `reading`. */
  function CotTime(format: Instant -> string, reading: Instant, offsetSeconds: int): string {
    format(reading + offsetSeconds * MICROS_PER_SECOND)
  }

  // ------------------------------------------------------------------
  // The event.

  const EVENT_ATTRIBUTES: set<string> := {"version", "type", "uid", "how", "time", "start", "stale"}
  const POINT_ATTRIBUTES: set<string> := {"lat", "lon", "hae", "ce", "le"}
  const CONTACT_ATTRIBUTES: set<string> := {"type", "name", "category", "droid"}

  /** The point sub-element: the position as given, with no check that it
      is made of numbers, and fixed height and error estimates. */
  function Point(lat: string, lon: string): (p: Element)
    ensures p.tag == "point" && p.attrib.Keys == POINT_ATTRIBUTES && p.children == [] && p.text == None
    ensures Get(p, "lat") == Some(lat) && Get(p, "lon") == Some(lon)
    ensures Get(p, "hae") == Some("10.0") && Get(p, "ce") == Some("10.0") && Get(p, "le") == Some("10.0")
  {
    Element("point", map["lat" := lat, "lon" := lon, "hae" := "10.0", "ce" := "10.0", "le" := "10.0"], [], None)
  }

  /** The contact sub-element of detail: its display name is the uid. */
  function Contact(uid: string): (c: Element)
    ensures c.tag == "contact" && c.attrib.Keys == CONTACT_ATTRIBUTES && c.children == [] && c.text == None
    ensures Get(c, "type") == Some("v") && Get(c, "name") == Some(uid)
    ensures Get(c, "category") == Some("Enemy") && Get(c, "droid") == Some("ANDROID-1234567890")
  {
    Element("contact", map["type" := "v", "name" := uid, "category" := "Enemy", "droid" := "ANDROID-1234567890"], [], None)
  }

  /** The note sub-element of detail, whose text names the uid. */
  function Note(uid: string): (n: Element)
    ensures n.tag == "note" && n.attrib == map[] && n.children == []
    ensures n.text == Some("Enemy " + uid)
  {
    Element("note", map[], [], Some("Enemy " + uid))
  }

  /** The detail sub-element: a contact, then a note. */
  function Detail(uid: string): (d: Element)
    ensures d.tag == "detail" && d.attrib == map[] && d.text == None
    ensures d.children == [Contact(uid), Note(uid)]
    ensures Find(d, "contact") == Some(Contact(uid)) && Find(d, "note") == Some(Note(uid))
  {
    var d := Element("detail", map[], [Contact(uid), Note(uid)], None);
    assert FindIn(d.children[1..], "note") == Some(Note(uid));
    d
  }

  /** The attributes of the event element. */
  function EventAttributes(uid: string, time: string, start: string, stale: string): (a: map<string, string>)
    ensures a.Keys == EVENT_ATTRIBUTES
    ensures a["version"] == "2.0" && a["type"] == "a-h-G-U" && a["how"] == "m-g" && a["uid"] == uid
    ensures a["time"] == time && a["start"] == start && a["stale"] == stale
  {
    map["version" := "2.0", "type" := "a-h-G-U", "uid" := uid, "how" := "m-g",
        "time" := time, "start" := start, "stale" := stale]
  }

  /** gen_cot(lat, lon, uid), where the three calls of pytak.cot_time read
      the clock as timeAt, startAt and staleAt, in that order. */
  function GenCot(lat: string, lon: string, uid: string,
                  format: Instant -> string, timeAt: Instant, startAt: Instant, staleAt: Instant): (r: Element)
    // the event element and its fixed attributes
    ensures r.tag == "event" && r.text == None && r.attrib.Keys == EVENT_ATTRIBUTES
    ensures Get(r, "version") == Some("2.0") && Get(r, "type") == Some("a-h-G-U") && Get(r, "how") == Some("m-g")
    ensures Get(r, "uid") == Some(uid)
    // time and start are the clock as read; stale is 300 seconds past its reading
    ensures Get(r, "time") == Some(format(timeAt)) && Get(r, "start") == Some(format(startAt))
    ensures Get(r, "stale") == Some(format(staleAt + STALE_SECONDS * MICROS_PER_SECOND))
    // exactly two sub-elements: the point, then the detail
    ensures r.children == [Point(lat, lon), Detail(uid)]
    ensures Find(r, "point") == Some(Point(lat, lon)) && Find(r, "detail") == Some(Detail(uid))
  {
    var r := Element("event",
      EventAttributes(uid, CotTime(format, timeAt, 0), CotTime(format, startAt, 0),
                      CotTime(format, staleAt, STALE_SECONDS)),
      [Point(lat, lon), Detail(uid)], None);
    assert FindIn(r.children[1..], "detail") == Some(Detail(uid));
    r
  }

  // ------------------------------------------------------------------
  // Reading an event back.

  /** The parts of an event that vary from one message to the next. */
  datatype Report = Report(uid: string, lat: string, lon: string, time: string, start: string, stale: string)

  /** What a consumer reads from an event: the identifier and times from
      the event element, the position from its point element. None when the
      tree is not an event or lacks one of those attributes. */
  function ReadReport(e: Element): (r: Option<Report>)
    ensures r.Some? ==> e.tag == "event" && Get(e, "uid") == Some(r.value.uid)
  {
    var point := Find(e, "point");
    if e.tag == "event" && {"uid", "time", "start", "stale"} <= e.attrib.Keys &&
       point.Some? && {"lat", "lon"} <= point.value.attrib.Keys
    then
      Some(Report(e.attrib["uid"], point.value.attrib["lat"], point.value.attrib["lon"],
                  e.attrib["time"], e.attrib["start"], e.attrib["stale"]))
    else None
  }

  /** Every value gen_cot is given comes back out of the event it builds. */
  lemma ReadReportOfGenCot(lat: string, lon: string, uid: string,
                           format: Instant -> string, timeAt: Instant, startAt: Instant, staleAt: Instant)
    ensures ReadReport(GenCot(lat, lon, uid, format, timeAt, startAt, staleAt)) ==
            Some(Report(uid, lat, lon, format(timeAt), format(startAt),
                        format(staleAt + STALE_SECONDS * MICROS_PER_SECOND)))
  {
  }

  /** Events that differ in identifier or position read back differently. */
  lemma GenCotInjective(lat1: string, lon1: string, uid1: string,
                        lat2: string, lon2: string, uid2: string,
                        format: Instant -> string, timeAt: Instant, startAt: Instant, staleAt: Instant)
    requires GenCot(lat1, lon1, uid1, format, timeAt, startAt, staleAt) ==
             GenCot(lat2, lon2, uid2, format, timeAt, startAt, staleAt)
    ensures lat1 == lat2 && lon1 == lon2 && uid1 == uid2
  {
    ReadReportOfGenCot(lat1, lon1, uid1, format, timeAt, startAt, staleAt);
    ReadReportOfGenCot(lat2, lon2, uid2, format, timeAt, startAt, staleAt);
  }

  /** When the three clock readings coincide, time equals start and stale
      is start moved 300 seconds ahead. */
  lemma SingleReading(lat: string, lon: string, uid: string, format: Instant -> string, now: Instant)
    ensures var e := GenCot(lat, lon, uid, format, now, now, now);
            Get(e, "time") == Get(e, "start") == Some(format(now)) &&
            Get(e, "stale") == Some(format(now + 300 * 1000000))
  {
  }
}
