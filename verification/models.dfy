/** The record shapes of models/product.py, models/company.py and
    models/user.py, and the JSON dictionaries `to_dict` turns them into. */
module Models {
  import opened Wrappers

  /** A (latitude, longitude) pair as the geocoder returns it. */
  datatype Coord = Coord(lat: real, lon: real)

  /** The JSON values a persisted record holds. */
  datatype Value =
    | JInt(i: int)
    | JFloat(x: real)
    | JString(s: string)
    | JFloatList(xs: seq<real>)

  /** A JSON object, as `to_dict` returns it and `json.dump` writes it. */
  type Record = map<string, Value>

  const ProductKeys: set<string> := {"id", "name", "price", "company_id"}
  const CompanyKeys: set<string> := {"id", "name", "address", "location"}

  /** A catalog product: identity, name, price and the id of its vendor. */
  datatype Product = Product(id: int, name: string, price: real, companyId: int) {

    /** `Product.to_dict`: the four fields under their JSON keys; reading
        the dictionary back gives this product again. */
    function ToDict(): (d: Record)
      ensures d.Keys == ProductKeys
      ensures ProductFromDict(d) == Some(this)
    {
      map["id" := JInt(id), "name" := JString(name), "price" := JFloat(price), "company_id" := JInt(companyId)]
    }
  }

  /** Reads a product back from a dictionary holding its four keys with
      values of the right JSON kinds; anything else is not a product. */
  function ProductFromDict(d: Record): (r: Option<Product>)
    ensures r.Some? <==>
      && "id" in d && d["id"].JInt?
      && "name" in d && d["name"].JString?
      && "price" in d && d["price"].JFloat?
      && "company_id" in d && d["company_id"].JInt?
  {
    if "id" in d && d["id"].JInt? && "name" in d && d["name"].JString?
       && "price" in d && d["price"].JFloat? && "company_id" in d && d["company_id"].JInt?
    then Some(Product(d["id"].i, d["name"].s, d["price"].x, d["company_id"].i))
    else None
  }

  /** A dictionary with exactly the product keys that reads back as a
      product is that product's `to_dict`. */
  lemma ProductDictRoundTrip(d: Record)
    requires d.Keys == ProductKeys && ProductFromDict(d).Some?
    ensures ProductFromDict(d).value.ToDict() == d
  {
    var e := ProductFromDict(d).value.ToDict();
    assert e.Keys == d.Keys;
    forall k | k in d ensures e[k] == d[k] {
      assert k == "id" || k == "name" || k == "price" || k == "company_id";
    }
  }

  /** A vendor. `location` is `None` for a stored record that has no
      "location" key; a `Company` object always has one (see `NewCompany`). */
  datatype Company = Company(id: int, name: string, address: string, location: Option<seq<real>>) {

    /** `Company.to_dict`: the fields under their JSON keys, the location
        passed through unchanged; reading it back gives this company again. */
    function ToDict(): (d: Record)
      ensures d.Keys == if location.Some? then CompanyKeys else CompanyKeys - {"location"}
      ensures location.Some? ==> d["location"] == JFloatList(location.value)
      ensures CompanyFromDict(d) == Some(this)
    {
      var base := map["id" := JInt(id), "name" := JString(name), "address" := JString(address)];
      if location.Some? then base["location" := JFloatList(location.value)] else base
    }
  }

  /** `Company.__init__`: every constructor argument is stored as given. */
  function NewCompany(id: int, name: string, address: string, location: seq<real>): (c: Company)
    ensures c.id == id && c.name == name && c.address == address && c.location == Some(location)
  {
    Company(id, name, address, Some(location))
  }

  /** A company built by the constructor serialises to exactly the four
      company keys, its location included. */
  lemma NewCompanyKeys(id: int, name: string, address: string, location: seq<real>)
    ensures NewCompany(id, name, address, location).ToDict().Keys == CompanyKeys
    ensures NewCompany(id, name, address, location).ToDict()["location"] == JFloatList(location)
  {
  }

  /** Reads a company back from a dictionary; a missing "location" key is
      an absent location, a "location" of another kind is not a company. */
  function CompanyFromDict(d: Record): (r: Option<Company>)
    ensures r.Some? <==>
      && "id" in d && d["id"].JInt?
      && "name" in d && d["name"].JString?
      && "address" in d && d["address"].JString?
      && ("location" in d ==> d["location"].JFloatList?)
    ensures r.Some? ==> (r.value.location.Some? <==> "location" in d)
  {
    if "id" in d && d["id"].JInt? && "name" in d && d["name"].JString?
       && "address" in d && d["address"].JString?
    then
      if "location" !in d then Some(Company(d["id"].i, d["name"].s, d["address"].s, None))
      else if d["location"].JFloatList? then Some(Company(d["id"].i, d["name"].s, d["address"].s, Some(d["location"].xs)))
      else None
    else None
  }

  /** A dictionary with only company keys that reads back as a company is
      that company's `to_dict`. */
  lemma CompanyDictRoundTrip(d: Record)
    requires d.Keys <= CompanyKeys && CompanyFromDict(d).Some?
    ensures CompanyFromDict(d).value.ToDict() == d
  {
    var e := CompanyFromDict(d).value.ToDict();
    assert e.Keys == d.Keys;
    forall k | k in d ensures e[k] == d[k] {
      assert k == "id" || k == "name" || k == "address" || k == "location";
    }
  }

  /** models/user.py: the user's address and coordinates, updated in place. */
  class User {
    var address: string
    var location: Coord

    constructor (address: string, location: Coord)
      ensures this.address == address && this.location == location
    {
      this.address := address;
      this.location := location;
    }

    /** Overwrites both fields. The new state depends only on the
        arguments, so a second call with the same arguments changes nothing. */
    method SetLocation(address: string, location: Coord)
      modifies this
      ensures this.address == address && this.location == location
    {
      this.address := address;
      this.location := location;
    }
  }
}
