/**
  The SEO URL update listener: forwards indexer events for categories, products and landing
  pages to the SEO URL updater unless the event asks to skip that updater, widens a category
  update with every non-link category below an affected one, and asks the indexer registry for
  a full category and product re-index when a sales channel moves an entry-point category.

  The updater and the indexer registry are observed through the calls they receive (two call
  logs on the listener); the category table is an in-memory sequence of rows.
*/
module SeoUrlUpdate {
  import opened Wrappers
  import opened Php

  const CATEGORY_SEO_URL_UPDATER := "category.seo-url"
  const PRODUCT_SEO_URL_UPDATER := "product.seo-url"
  const LANDING_PAGE_SEO_URL_UPDATER := "landing_page.seo-url"

  /** The route names of the navigation, product detail and landing page SEO URL routes. */
  const NAVIGATION_PAGE_ROUTE := "frontend.navigation.page"
  const PRODUCT_PAGE_ROUTE := "frontend.detail.page"
  const LANDING_PAGE_ROUTE := "frontend.landing.page"

  const TYPE_LINK := "link"
  const SALES_CHANNEL_ENTITY := "sales_channel"
  const ENTRY_POINT_PROPERTIES := ["navigationCategoryId", "footerCategoryId", "serviceCategoryId"]
  const ENTRY_POINT_INDEXERS := ["category.indexer", "product.indexer"]

  /** A row of the category table: hex id, type and materialised path of ancestor ids. */
  datatype Category = Category(id: string, categoryType: string, path: Option<string>)

  /** A product, category or landing-page indexer event. */
  datatype IndexerEvent = IndexerEvent(ids: seq<string>, skip: seq<string>)

  /** One call of the SEO URL updater. */
  datatype UpdateCall = UpdateCall(routeName: string, ids: seq<string>)

  /** One write result of an entity-written event: the entity, its key and the written properties. */
  datatype WriteResult = WriteResult(entityName: string, primaryKey: string, payload: set<string>)

  /** The OR of the query's clauses `type != 'link' AND path LIKE '%id%'`, one per id. */
  predicate IsBelowAny(c: Category, ids: seq<string>) {
    c.categoryType != TYPE_LINK && c.path.Some? && exists id :: id in ids && Contains(c.path.value, id)
  }

  /** The rows the children query selects, in table order. */
  function SelectedRows(table: seq<Category>, ids: seq<string>): seq<Category>
  {
    if table == [] then []
    else
      var last := table[|table| - 1];
      SelectedRows(table[..|table| - 1], ids) + (if IsBelowAny(last, ids) then [last] else [])
  }

  function Ids(rows: seq<Category>): (ids: seq<string>)
    ensures |ids| == |rows| && forall i :: 0 <= i < |rows| ==> ids[i] == rows[i].id
  {
    seq(|rows|, i requires 0 <= i < |rows| => rows[i].id)
  }

  /** A row is selected exactly when it is in the table, is not a link and its path contains an id. */
  lemma {:induction false} SelectedRowsMembership(table: seq<Category>, ids: seq<string>, c: Category)
    ensures c in SelectedRows(table, ids) <==> c in table && IsBelowAny(c, ids)
  {
    if table != [] {
      var front := table[..|table| - 1];
      SelectedRowsMembership(front, ids, c);
      assert table == front + [table[|table| - 1]];
    }
  }

  /** Link categories are never selected. */
  lemma LinksNeverSelected(table: seq<Category>, ids: seq<string>)
    ensures forall c :: c in SelectedRows(table, ids) ==> c.categoryType != TYPE_LINK
  {
    forall c | c in SelectedRows(table, ids) ensures c.categoryType != TYPE_LINK {
      SelectedRowsMembership(table, ids, c);
    }
  }

  /** No affected id, no child. */
  lemma {:induction false} NoIdsNoChildren(table: seq<Category>)
    ensures SelectedRows(table, []) == []
  {
    if table != [] {
      NoIdsNoChildren(table[..|table| - 1]);
    }
  }

  /** The ids of the non-link categories whose path contains one of `ids`; no query for no ids. */
  method GetCategoryChildren(table: seq<Category>, ids: seq<string>) returns (children: seq<string>)
    ensures children == Ids(SelectedRows(table, ids))
  {
    if ids == [] {
      NoIdsNoChildren(table);
      return [];
    }
    var rows: seq<Category> := [];
    for r := 0 to |table|
      invariant rows == SelectedRows(table[..r], ids)
    {
      var row := table[r];
      var selected := false;
      if row.categoryType != TYPE_LINK && row.path.Some? {
        for j := 0 to |ids|
          invariant selected <==> exists id :: id in ids[..j] && Contains(row.path.value, id)
        {
          if Contains(row.path.value, ids[j]) {
            selected := true;
          }
        }
        assert ids[..|ids|] == ids;
      }
      assert table[..r + 1][..r] == table[..r];
      rows := rows + (if selected then [row] else []);
    }
    assert table[..|table|] == table;
    children := Ids(rows);
  }

  /** The primary keys of the writes to `entity` whose payload holds one of `properties`. */
  function PrimaryKeysWithPropertyChange(writes: seq<WriteResult>, entity: string, properties: seq<string>): seq<string>
  {
    if writes == [] then []
    else
      var w := writes[0];
      (if w.entityName == entity && exists p :: p in properties && p in w.payload then [w.primaryKey] else [])
      + PrimaryKeysWithPropertyChange(writes[1..], entity, properties)
  }

  /** Some key is reported exactly when some write to `entity` touches one of `properties`. */
  lemma {:induction false} PropertyChangeReported(writes: seq<WriteResult>, entity: string, properties: seq<string>)
    ensures PrimaryKeysWithPropertyChange(writes, entity, properties) != [] <==>
      exists i, p :: 0 <= i < |writes| && writes[i].entityName == entity && p in properties && p in writes[i].payload
  {
    if writes != [] {
      PropertyChangeReported(writes[1..], entity, properties);
      if PrimaryKeysWithPropertyChange(writes[1..], entity, properties) != [] {
        var i, p :| 0 <= i < |writes[1..]| && writes[1..][i].entityName == entity && p in properties && p in writes[1..][i].payload;
        assert writes[i + 1].entityName == entity && p in writes[i + 1].payload;
      }
      if exists i, p :: 0 <= i < |writes| && writes[i].entityName == entity && p in properties && p in writes[i].payload {
        var i, p :| 0 <= i < |writes| && writes[i].entityName == entity && p in properties && p in writes[i].payload;
        if i > 0 {
          assert writes[1..][i - 1] == writes[i];
        }
      }
    }
  }

  class SeoUrlUpdateListener {
    /** The category table the children query runs against. */
    const categoryTable: seq<Category>
    /** Calls received by the SEO URL updater, in order. */
    var updates: seq<UpdateCall>
    /** Indexing messages received by the indexer registry, in order. */
    var indexingMessages: seq<seq<string>>

    constructor (categoryTable: seq<Category>)
      ensures this.categoryTable == categoryTable && updates == [] && indexingMessages == []
    {
      this.categoryTable := categoryTable;
      updates := [];
      indexingMessages := [];
    }

    /** Asks for a category and product re-index when a sales channel changed an entry point. */
    method DetectSalesChannelEntryPoints(writes: seq<WriteResult>)
      modifies this
      ensures updates == old(updates)
      ensures (exists i, p :: 0 <= i < |writes| && writes[i].entityName == SALES_CHANNEL_ENTITY
                             && p in ENTRY_POINT_PROPERTIES && p in writes[i].payload)
              ==> indexingMessages == old(indexingMessages) + [ENTRY_POINT_INDEXERS]
      ensures !(exists i, p :: 0 <= i < |writes| && writes[i].entityName == SALES_CHANNEL_ENTITY
                              && p in ENTRY_POINT_PROPERTIES && p in writes[i].payload)
              ==> indexingMessages == old(indexingMessages)
    {
      var salesChannelIds := PrimaryKeysWithPropertyChange(writes, SALES_CHANNEL_ENTITY, ENTRY_POINT_PROPERTIES);
      PropertyChangeReported(writes, SALES_CHANNEL_ENTITY, ENTRY_POINT_PROPERTIES);
      if salesChannelIds == [] {
        return;
      }
      indexingMessages := indexingMessages + [ENTRY_POINT_INDEXERS];
    }

    /** Updates the navigation SEO URLs of the event's categories and of every category below them. */
    method UpdateCategoryUrls(event: IndexerEvent)
      modifies this
      ensures indexingMessages == old(indexingMessages)
      ensures CATEGORY_SEO_URL_UPDATER in event.skip ==> updates == old(updates)
      ensures CATEGORY_SEO_URL_UPDATER !in event.skip ==>
        updates == old(updates) + [UpdateCall(NAVIGATION_PAGE_ROUTE, event.ids + Ids(SelectedRows(categoryTable, event.ids)))]
    {
      if CATEGORY_SEO_URL_UPDATER in event.skip {
        return;
      }
      var children := GetCategoryChildren(categoryTable, event.ids);
      updates := updates + [UpdateCall(NAVIGATION_PAGE_ROUTE, event.ids + children)];
    }

    method UpdateProductUrls(event: IndexerEvent)
      modifies this
      ensures indexingMessages == old(indexingMessages)
      ensures PRODUCT_SEO_URL_UPDATER in event.skip ==> updates == old(updates)
      ensures PRODUCT_SEO_URL_UPDATER !in event.skip ==>
        updates == old(updates) + [UpdateCall(PRODUCT_PAGE_ROUTE, event.ids)]
    {
      if PRODUCT_SEO_URL_UPDATER in event.skip {
        return;
      }
      updates := updates + [UpdateCall(PRODUCT_PAGE_ROUTE, event.ids)];
    }

    method UpdateLandingPageUrls(event: IndexerEvent)
      modifies this
      ensures indexingMessages == old(indexingMessages)
      ensures LANDING_PAGE_SEO_URL_UPDATER in event.skip ==> updates == old(updates)
      ensures LANDING_PAGE_SEO_URL_UPDATER !in event.skip ==>
        updates == old(updates) + [UpdateCall(LANDING_PAGE_ROUTE, event.ids)]
    {
      if LANDING_PAGE_SEO_URL_UPDATER in event.skip {
        return;
      }
      updates := updates + [UpdateCall(LANDING_PAGE_ROUTE, event.ids)];
    }
  }
}
