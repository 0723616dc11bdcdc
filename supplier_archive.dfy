/** The supplier archive: the 32 seeded suppliers and the "new supplier" form
    that appends one. */
module SupplierArchiveView {
  import opened Common

  datatype Supplier = Supplier(
    id: string,
    name: string,
    contact: Option<string>,
    manager: string,
    phone: Option<string>,
    zipCode: Option<string>,
    fax: Option<string>,
    address: Option<string>,
    kind: string,
    qaSystem: Option<string>)

  /** The three inputs of the "new supplier" form (`kind` is the source's
      `type` field); there is no input for the other fields. */
  datatype SupplierForm = SupplierForm(name: string, manager: string, kind: string)

  const Types: seq<string> := ["制造", "电子", "化工", "物流", "原材料"]
  const Names: seq<string> := ["正奇机械", "Alpha Elec", "Beta Parts", "兴华科技", "盛泰物流", "嘉实化工", "天成轴承", "悦达包装"]

  /** Seed supplier `i` of `generateInitialSuppliers` (`kind` is the
      source's `type` field). */
  function SeedSupplier(i: nat): Supplier {
    Supplier(
      "SUP" + Pad3(i + 1),
      Names[i % |Names|] + NatToString(i + 1) + "公司",
      Some("张" + NatToString(i + 1) + "经理"),
      "刘" + NatToString(i + 1) + "总",
      Some("138-" + NatToString(1000 + i) + "-" + NatToString(2000 + i)),
      Some("200000"),
      Some("021-123456"),
      Some("工业园区" + NatToString(i + 1) + "号路"),
      Types[i % |Types|],
      Some(if i % 2 == 0 then "ISO9001" else "AS9100"))
  }

  function SeedSuppliers(): (ss: seq<Supplier>)
  {
    seq(32, i requires 0 <= i < 32 => SeedSupplier(i))
  }

  /** The 32 seeded suppliers have ids SUP001..SUP032, type `Types[i % 5]`,
      QA system ISO9001 for even and AS9100 for odd `i`, and a name made of
      `Names[i % 8]`, the number i+1 and "公司". */
  lemma SeedSuppliersShape()
    ensures |SeedSuppliers()| == 32
    ensures forall i :: 0 <= i < 32 ==>
              && SeedSuppliers()[i].id == "SUP" + Pad3(i + 1)
              && |SeedSuppliers()[i].id| == 6
              && SeedSuppliers()[i].kind == Types[i % 5]
              && SeedSuppliers()[i].qaSystem == Some(if i % 2 == 0 then "ISO9001" else "AS9100")
              && SeedSuppliers()[i].name == Names[i % 8] + NatToString(i + 1) + "公司"
  {
  }

  /** The seeded ids are pairwise distinct. */
  lemma SeedSupplierIdsDistinct()
    ensures forall i, j :: 0 <= i < j < |SeedSuppliers()| ==> SeedSuppliers()[i].id != SeedSuppliers()[j].id
  {
    var ss := SeedSuppliers();
    forall i, j | 0 <= i < j < 32 ensures ss[i].id != ss[j].id {
      if ss[i].id == ss[j].id {
        PrefixedPad3Injective("SUP", i + 1, j + 1);
      }
    }
  }

  /** The supplier `handleAdd` appends: the spread form plus an id from the
      list length; the fields without an input stay unset. */
  function NewSupplier(ss: seq<Supplier>, form: SupplierForm): Supplier {
    Supplier("SUP" + Pad3(|ss| + 1), form.name, None, form.manager, None, None, None, None, form.kind, None)
  }

  /** The `suppliers` state of the view. */
  class SupplierStore {
    var suppliers: seq<Supplier>

    constructor ()
      ensures suppliers == SeedSuppliers()
    {
      suppliers := SeedSuppliers();
    }

    /** `handleAdd`: one supplier more, at the end; earlier suppliers are
        unchanged and the new one has the three typed fields, and neither a
        phone nor a QA system for the table to show. */
    method Add(form: SupplierForm)
      modifies this
      ensures suppliers == old(suppliers) + [NewSupplier(old(suppliers), form)]
      ensures |suppliers| == |old(suppliers)| + 1 && suppliers[..|old(suppliers)|] == old(suppliers)
      ensures var s := suppliers[|old(suppliers)|];
                && s.id == "SUP" + Pad3(|old(suppliers)| + 1)
                && s.name == form.name && s.manager == form.manager && s.kind == form.kind
                && s.contact == None && s.phone == None && s.zipCode == None
                && s.fax == None && s.address == None && s.qaSystem == None
    {
      suppliers := suppliers + [NewSupplier(suppliers, form)];
    }
  }

  /** Starting from the seed, an added supplier's id differs from every
      seeded id, as long as nothing was deleted (this view has no delete). */
  lemma AddAfterSeedHasFreshId(form: SupplierForm)
    ensures forall k :: 0 <= k < 32 ==> NewSupplier(SeedSuppliers(), form).id != SeedSuppliers()[k].id
  {
    var ss := SeedSuppliers();
    forall k | 0 <= k < 32 ensures NewSupplier(ss, form).id != ss[k].id {
      if NewSupplier(ss, form).id == ss[k].id {
        PrefixedPad3Injective("SUP", 33, k + 1);
      }
    }
  }
}
