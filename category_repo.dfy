/** The in-memory category repository: a dict from category id to category.
    The code base holds this repository twice, in two files with the same
    text; this one class models both. */
module CategoryRepo {
  import opened Common
  import opened Seqs
  import opened PyDict
  import opened Entities

  class DummyCategoryRepository {
    var categories: Dict<Uuid, Category>

    ghost predicate Valid()
      reads this
    {
      categories.Valid() && forall id :: id in categories.entries ==> categories.entries[id].id == id
    }

    constructor ()
      ensures Valid() && categories.entries == map[]
    {
      categories := Empty();
    }

    function GetById(categoryId: Uuid): (r: Option<Category>)
      reads this
      requires Valid()
      ensures r.Some? <==> categoryId in categories.entries
      ensures r.Some? ==> r.value == categories.entries[categoryId] && r.value.id == categoryId
    {
      categories.Get(categoryId)
    }

    function GetAllByUserId(userId: Uuid): (r: seq<Category>)
      reads this
      requires Valid()
      ensures forall c :: c in r <==> c in categories.entries.Values && c.userId == userId
    {
      var p := (c: Category) => c.userId == userId;
      FilterValues(categories, p);
      Filter(categories.Values(), p)
    }

    method Create(category: Category) returns (r: Category)
      requires Valid()
      modifies this
      ensures Valid()
      ensures categories == old(categories).Put(category.id, category)
      ensures GetById(category.id) == Some(category) && r == category
    {
      categories := categories.Put(category.id, category);
      r := category;
    }

    /** Replaces the record under its id; every other id keeps its record. */
    method Update(category: Category) returns (r: Category)
      requires Valid()
      modifies this
      ensures Valid()
      ensures categories == old(categories).Put(category.id, category)
      ensures forall id :: id in old(categories.entries) && id != category.id ==>
                id in categories.entries && categories.entries[id] == old(categories.entries[id])
      ensures r == category
    {
      categories := categories.Put(category.id, category);
      r := category;
    }

    method Delete(category: Category)
      requires Valid()
      modifies this
      ensures Valid()
      ensures categories == old(categories).Pop(category.id)
      ensures categories.entries == old(categories.entries) - {category.id}
      ensures category.id !in old(categories.entries) ==> categories == old(categories)
    {
      categories := categories.Pop(category.id);
    }
  }
}
