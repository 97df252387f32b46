/** The product catalogue: the option lists, the identity table built from
    the figure names, the product listing that prices each identity, and the
    addition of a new identity at the head of the table. */
module Catalog {
  import opened Seqs

  const IpList: seq<string> := ["曼波", "耄耋", "哈基米文化", "原创角色"]
  const CategoryList: seq<string> := ["PVC景品", "GK树脂", "盒蛋盲盒", "桌面摆件", "周边配件"]
  const ScaleList: seq<string> := ["1/7", "1/6", "1/4", "Q版", "无比例"]

  const FigureNames: seq<string> := [
    "曼波系列 诗歌剧·曼波 1/7 PVC手办",
    "曼波系列 Q版曼波 景品手办",
    "曼波系列 曼波·舞台Ver. GK雕像",
    "耄耋系列 圆头耄耋 桌面摆件",
    "耄耋系列 耄耋·南北绿豆 联名场景手办",
    "耄耋系列 耄耋·沙发躺平款 1/4 手办",
    "哈基米文化 哈基猫 蜂蜜水限定 GK雕像",
    "哈基米文化 哈基米世界 城市夜景 diorama",
    "哈基米文化 哈基基米 双人组 盒蛋套装",
    "曼波 × 哈基米 曼波哈基米 联动款桌面宠物",
    "曼波 × 耄耋 曼波耄耋 联名场景手办",
    "原创角色 AI 桌宠 曼波哈基米 电子宠物公仔"
  ]

  /** A product's identity, without price or stock. */
  datatype ProductIdentity = ProductIdentity(id: int, name: string, ip: string, category: string, scale: string, status: bool)

  /** The identity of the name at position index of the name list: ids count
      from 1001 and the option lists are used round-robin. */
  function IdentityAt(index: nat, name: string): ProductIdentity
  {
    ProductIdentity(1001 + index, name, IpList[index % |IpList|], CategoryList[index % |CategoryList|],
      ScaleList[index % |ScaleList|], true)
  }

  /** `names.map((name, index) => ...)` for the names from position offset on. */
  function IdentitiesFrom(names: seq<string>, offset: nat): (r: seq<ProductIdentity>)
    ensures |r| == |names|
    ensures forall i :: 0 <= i < |r| ==>
      && r[i].id == 1001 + offset + i
      && r[i].name == names[i]
      && r[i].ip == IpList[(offset + i) % 4]
      && r[i].category == CategoryList[(offset + i) % 5]
      && r[i].scale == ScaleList[(offset + i) % 5]
      && r[i].status
  {
    if names == [] then [] else [IdentityAt(offset, names[0])] + IdentitiesFrom(names[1..], offset + 1)
  }

  function Identities(names: seq<string>): seq<ProductIdentity>
  {
    IdentitiesFrom(names, 0)
  }

  /** The initial identity table. */
  function DataList(): seq<ProductIdentity>
  {
    Identities(FigureNames)
  }

  /** The initial table has twelve entries with ids 1001..1012, all distinct. */
  lemma DataListShape()
    ensures |DataList()| == 12
    ensures forall i :: 0 <= i < 12 ==> DataList()[i].id == 1001 + i && DataList()[i].name == FigureNames[i]
    ensures forall i, j :: 0 <= i < j < 12 ==> DataList()[i].id < DataList()[j].id
  {
  }

  // ---------------------------------------------------------------------------
  // Listing
  // ---------------------------------------------------------------------------

  /** An identity with the price and stock drawn for it, when there are any. */
  datatype Product = Product(identity: ProductIdentity, price: Option<int>, stock: Option<int>)

  /** `list.map(item => ({ ...item, price, stock }))` with the draws given. */
  function Priced(ids: seq<ProductIdentity>, prices: seq<int>, stocks: seq<int>): (r: seq<Product>)
    requires |prices| == |ids| && |stocks| == |ids|
    ensures |r| == |ids|
    ensures forall i :: 0 <= i < |r| ==> r[i].identity == ids[i] && r[i].price == Some(prices[i]) && r[i].stock == Some(stocks[i])
  {
    if ids == [] then [] else [Product(ids[0], Some(prices[0]), Some(stocks[0]))] + Priced(ids[1..], prices[1..], stocks[1..])
  }

  // ---------------------------------------------------------------------------
  // Adding an identity
  // ---------------------------------------------------------------------------

  /** The fields of the add request's body. */
  datatype AddRequest = AddRequest(name: string, ip: string, category: string, scale: Option<string>)

  /** `body.scale || '无比例'`: an absent or empty scale becomes '无比例'. */
  function ScaleOr(scale: Option<string>): (r: string)
    ensures scale.Some? && scale.value != "" ==> r == scale.value
    ensures scale.None? || scale.value == "" ==> r == "无比例"
  {
    if scale.None? || scale.value == "" then "无比例" else scale.value
  }

  /** The new id: one more than the head entry's id, or 1001 for an empty table. */
  function NextId(list: seq<ProductIdentity>): int
  {
    if |list| > 0 then list[0].id + 1 else 1001
  }

  /** The variant that counts: the table's length plus 1001. */
  function CountedId(list: seq<ProductIdentity>): int
  {
    |list| + 1001
  }

  /** The new identity with the given id, copied from the request. */
  function FromRequest(id: int, body: AddRequest): (r: ProductIdentity)
    ensures r.id == id && r.name == body.name && r.ip == body.ip && r.category == body.category
    ensures r.scale == ScaleOr(body.scale) && r.status
  {
    ProductIdentity(id, body.name, body.ip, body.category, ScaleOr(body.scale), true)
  }

  predicate IdsDistinct(list: seq<ProductIdentity>)
  {
    forall i, j :: 0 <= i < j < |list| ==> list[i].id != list[j].id
  }

  predicate HeadIsMax(list: seq<ProductIdentity>)
  {
    |list| > 0 && forall i :: 0 <= i < |list| ==> list[i].id <= list[0].id
  }

  predicate IdsBelow(list: seq<ProductIdentity>, bound: int)
  {
    forall i :: 0 <= i < |list| ==> list[i].id < bound
  }

  /** The head-plus-one rule on the initial table gives 1002, the id of its
      second entry: the first addition duplicates an id. */
  lemma FirstAddDuplicates(body: AddRequest)
    ensures NextId(DataList()) == 1002 == DataList()[1].id
    ensures !IdsDistinct([FromRequest(NextId(DataList()), body)] + DataList())
  {
    var d := DataList();
    assert d[1].id == 1002;
    var l := [FromRequest(NextId(d), body)] + d;
    assert l[0].id == l[2].id;
  }

  /** When the head holds the largest id, the head-plus-one rule gives a fresh
      id, and the new head again holds the largest id. */
  lemma NextIdFresh(list: seq<ProductIdentity>, body: AddRequest)
    requires HeadIsMax(list)
    ensures forall i :: 0 <= i < |list| ==> list[i].id < NextId(list)
    ensures HeadIsMax([FromRequest(NextId(list), body)] + list)
    ensures IdsDistinct(list) ==> IdsDistinct([FromRequest(NextId(list), body)] + list)
  {
  }

  /** The counting rule gives a fresh id as long as every id lies below 1001
      plus the table's length, which the initial table meets and each counted
      addition keeps. */
  lemma CountedIdFresh(list: seq<ProductIdentity>, body: AddRequest)
    requires IdsBelow(list, CountedId(list))
    ensures forall i :: 0 <= i < |list| ==> list[i].id != CountedId(list)
    ensures IdsBelow([FromRequest(CountedId(list), body)] + list, CountedId([FromRequest(CountedId(list), body)] + list))
    ensures IdsDistinct(list) ==> IdsDistinct([FromRequest(CountedId(list), body)] + list)
  {
  }

  lemma DataListIdsBelowCount()
    ensures IdsBelow(DataList(), CountedId(DataList()))
    ensures IdsDistinct(DataList())
  {
    DataListShape();
  }

  /** The identity table, to which additions are prepended in place. */
  class Inventory {
    var identities: seq<ProductIdentity>

    constructor (initial: seq<ProductIdentity>)
      ensures identities == initial
    {
      identities := initial;
    }

    /** `/api/products`: each identity, in table order, with its price and stock. */
    function Listing(prices: seq<int>, stocks: seq<int>): (r: seq<Product>)
      reads this
      requires |prices| == |identities| && |stocks| == |identities|
      ensures |r| == |identities|
      ensures forall i :: 0 <= i < |r| ==> r[i].identity == identities[i]
    {
      Priced(identities, prices, stocks)
    }

    /** `/api/inventory/add`: the new identity, with the head-plus-one id, is
        put in front of the table and returned with a drawn price and stock. */
    method Add(body: AddRequest, price: int, stock: int) returns (r: Product)
      modifies this
      ensures identities == [FromRequest(NextId(old(identities)), body)] + old(identities)
      ensures r == Product(identities[0], Some(price), Some(stock))
    {
      var newId := if |identities| > 0 then identities[0].id + 1 else 1001;
      var identity := ProductIdentity(newId, body.name, body.ip, body.category,
        if body.scale.None? || body.scale.value == "" then "无比例" else body.scale.value, true);
      identities := [identity] + identities;
      r := Product(identity, Some(price), Some(stock));
    }

    /** The report module's `/api/inventory/add`: the id counts the table and
        the answer carries a price but no stock. */
    method AddCounted(body: AddRequest, price: int) returns (r: Product)
      modifies this
      ensures identities == [FromRequest(CountedId(old(identities)), body)] + old(identities)
      ensures r == Product(identities[0], Some(price), None)
    {
      var identity := ProductIdentity(|identities| + 1001, body.name, body.ip, body.category,
        if body.scale.None? || body.scale.value == "" then "无比例" else body.scale.value, true);
      identities := [identity] + identities;
      r := Product(identity, Some(price), None);
    }
  }
}
