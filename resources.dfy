/** The configured resource groups and the resolution of their logical
    resource ids (`core/cache`) to physical table names. */
module Resources {
  import opened Sequences

  /** A named, ordered list of logical resource ids whose tables are truncated together. */
  datatype ResourceGroup = ResourceGroup(name: string, members: seq<string>)

  /** The command's `$groups` configuration, in declaration order. */
  function DefaultGroups(): (groups: seq<ResourceGroup>)
    ensures |groups| == 8
    ensures forall g :: g in groups ==> g.members != []
  {
    [ ResourceGroup("Cache", ["core/cache", "core/cache_tag"]),
      ResourceGroup("Session", ["core/session"]),
      ResourceGroup("Dataflow", ["dataflow/batch_export", "dataflow/batch_import"]),
      ResourceGroup("Enterprise Admin Logs", ["enterprise_logging/event", "enterprise_logging/event_changes"]),
      ResourceGroup("Index", ["index/event", "index/process_event"]),
      ResourceGroup("Logs", ["log/customer", "log/quote_table", "log/summary_table", "log/summary_type_table",
                             "log/url_table", "log/url_info_table", "log/visitor", "log/visitor_info",
                             "log/visitor_online"]),
      ResourceGroup("Reports", ["reports/event", "reports/viewed_product_index", "reports/viewed_aggregated_daily",
                                "reports/viewed_aggregated_monthly", "reports/viewed_aggregated_yearly"]),
      ResourceGroup("Quotes", ["sales/quote", "sales/quote_address", "sales/quote_address_item", "sales/quote_item",
                               "sales/quote_item_option", "sales/quote_payment", "sales/quote_shipping_rate"])
    ]
  }

  /** The physical table names of the ids that resolve, in id order. The
      resolver is the registry's table-name lookup: an id missing from the map
      is one whose lookup reported "table does not exist". */
  function Resolve(resolver: map<string, string>, ids: seq<string>): (tables: seq<string>)
    ensures |tables| <= |ids|
  {
    if ids == [] then []
    else (if ids[0] in resolver then [resolver[ids[0]]] else []) + Resolve(resolver, ids[1..])
  }

  /** Resolution is done id by id: it distributes over concatenation, so the
      order of the ids is the order of the tables. */
  lemma {:induction false} ResolveAppend(resolver: map<string, string>, a: seq<string>, b: seq<string>)
    ensures Resolve(resolver, a + b) == Resolve(resolver, a) + Resolve(resolver, b)
    decreases |a|
  {
    if a == [] {
      assert a + b == b;
    } else {
      assert (a + b)[0] == a[0] && (a + b)[1..] == a[1..] + b;
      ResolveAppend(resolver, a[1..], b);
      // Regrouping hint: the solver is slow to reassociate these concatenations unaided.
      Regroup3(if a[0] in resolver then [resolver[a[0]]] else [], Resolve(resolver, a[1..]), Resolve(resolver, b));
    }
  }

  /** A table is in the resolved list exactly when some id of the list resolves to it. */
  lemma {:induction false} ResolveContents(resolver: map<string, string>, ids: seq<string>, t: string)
    ensures t in Resolve(resolver, ids) <==> exists i :: 0 <= i < |ids| && ids[i] in resolver && resolver[ids[i]] == t
    decreases |ids|
  {
    if ids != [] {
      ResolveContents(resolver, ids[1..], t);
      if i :| 0 < i < |ids| && ids[i] in resolver && resolver[ids[i]] == t {
        assert ids[1..][i - 1] == ids[i];
      }
      if i :| 0 <= i < |ids[1..]| && ids[1..][i] in resolver && resolver[ids[1..][i]] == t {
        assert ids[i + 1] == ids[1..][i];
      }
    }
  }

  /** When every id resolves, nothing is dropped and each id is replaced in place. */
  lemma {:induction false} ResolveAllFound(resolver: map<string, string>, ids: seq<string>)
    requires forall i :: 0 <= i < |ids| ==> ids[i] in resolver
    ensures |Resolve(resolver, ids)| == |ids|
    ensures forall i :: 0 <= i < |ids| ==> Resolve(resolver, ids)[i] == resolver[ids[i]]
    decreases |ids|
  {
    if ids != [] {
      ResolveAllFound(resolver, ids[1..]);
    }
  }

  /** The resolved list is empty exactly when no id resolves. */
  lemma {:induction false} ResolveEmptyIffNoneFound(resolver: map<string, string>, ids: seq<string>)
    ensures Resolve(resolver, ids) == [] <==> forall i :: 0 <= i < |ids| ==> ids[i] !in resolver
    decreases |ids|
  {
    if ids != [] {
      ResolveEmptyIffNoneFound(resolver, ids[1..]);
      if forall i :: 0 <= i < |ids[1..]| ==> ids[1..][i] !in resolver {
        forall i | 0 < i < |ids| ensures ids[i] !in resolver {
          assert ids[i] == ids[1..][i - 1];
        }
      }
    }
  }
}
