/**
 * The fixed tables of the route demo (app.js): nine waypoints the train line
 * passes through, and seven descriptive records shown as cards. The record
 * table has no entries for Lanzhou and Urumqi, so from the fifth waypoint on
 * the two tables no longer line up position by position.
 */
module RouteData {
  import opened Wrappers
  import opened Segments

  /** A descriptive record: name, coordinates, image path and description. */
  datatype Country = Country(name: string, coords: LatLng, image: string, description: string)

  /** Where the map is centred when it is first created (Zhengzhou). */
  const DefaultCenter: LatLng := LatLng(34.7473, 113.6249)

  /** The waypoints, in travel order: Yiwu, Hefei, Xi'an, Zhengzhou, Lanzhou, Urumqi, Alashankou, Duisburg, Madrid. */
  const RouteCoordinates: seq<LatLng> := [
    LatLng(29.3417, 120.0975),
    LatLng(31.8206, 117.2274),
    LatLng(34.3418, 108.9398),
    LatLng(34.7473, 113.6249),
    LatLng(36.0611, 103.8342),
    LatLng(43.8163, 87.6233),
    LatLng(45.1667, 82.5667),
    LatLng(51.4344, 6.7623),
    LatLng(40.4168, -3.7038)
  ]

  /** The descriptive records, in table order. */
  const Countries: seq<Country> := [
    Country("义乌", LatLng(29.3417, 120.0975), "./OIP-C.jpg",
      "全球最大小商品集散中心，班列始发站，日均发送货物200标箱"),
    Country("合肥", LatLng(31.8206, 117.2274), "./OIP-C.jpg",
      "长三角重要物流枢纽，连接江浙沪与内陆的货物集散中心"),
    Country("西安", LatLng(34.3418, 108.9398), "./OIP-C.jpg",
      "西北地区核心集散中心，中欧班列集结中心示范工程"),
    Country("郑州", LatLng(34.7473, 113.6249), "./OIP-C.jpg",
      "全国铁路心脏枢纽，拥有亚洲最大的列车编组站"),
    Country("阿拉山口", LatLng(45.1667, 82.5667), "./OIP-C.jpg",
      "中国最大陆路口岸，中哈铁路轨距转换站，日均通关10列"),
    Country("杜伊斯堡", LatLng(51.4344, 6.7623), "./OIP-C.jpg",
      "欧洲最大内陆港，班列欧洲终点站，辐射欧洲28国"),
    Country("马德里", LatLng(40.4168, -3.7038), "./OIP-C.jpg",
      "南欧物流中心，连接地中海地区的重要枢纽")
  ]

  /**
   * `countries[i]`: the record at a position, or nothing past the end of the
   * table (where JavaScript yields `undefined`).
   */
  function RecordAt(i: nat): (r: Option<Country>)
    ensures r.Some? <==> i < |Countries|
    ensures r.Some? ==> r.value == Countries[i]
  {
    if i < |Countries| then Some(Countries[i]) else None
  }

  /**
   * The records agree with the waypoints on the first four positions and
   * disagree on the next three, where each record belongs two waypoints further on.
   */
  lemma TablesOutOfStep()
    ensures |RouteCoordinates| == 9 && |Countries| == 7
    ensures forall i :: 0 <= i < 4 ==> Countries[i].coords == RouteCoordinates[i]
    ensures forall i :: 4 <= i < 7 ==>
      Countries[i].coords != RouteCoordinates[i] && Countries[i].coords == RouteCoordinates[i + 2]
  {
  }
}
