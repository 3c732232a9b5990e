/**
 * The refined schema as the validator and the transformation jobs see it:
 * each of the six tables either exists, with its rows, or does not.
 */
module Refined {
  import opened Sql
  import BestSellers
  import BrandPerformance
  import SalesKpis
  import CancellationAnalysis
  import CategoryVariation
  import RegionalAnalysis

  datatype RefinedDb = RefinedDb(
    maisVendidos: Option<seq<BestSellers.BestSeller>>,
    performance: Option<seq<BrandPerformance.Performance>>,
    kpis: Option<seq<SalesKpis.Kpi>>,
    cancelamentos: Option<seq<CancellationAnalysis.Cancellation>>,
    categoria: Option<seq<CategoryVariation.Variation>>,
    regional: Option<seq<RegionalAnalysis.Regional>>)

  const MAIS_VENDIDOS: string := "mais_vendidos_mensal_estado"
  const PERFORMANCE: string := "performance_mensal_marca"
  const KPIS: string := "kpis_vendas"
  const CANCELAMENTOS: string := "analise_cancelamentos"
  const CATEGORIA: string := "vendas_categoria_variacao"
  const REGIONAL: string := "analise_regional"

  /** SELECT COUNT(*) FROM refined.<name>: None when the schema has no such table. */
  function RowCount(r: RefinedDb, name: string): Option<nat> {
    if name == MAIS_VENDIDOS then (if r.maisVendidos.Some? then Some(|r.maisVendidos.value|) else None)
    else if name == PERFORMANCE then (if r.performance.Some? then Some(|r.performance.value|) else None)
    else if name == KPIS then (if r.kpis.Some? then Some(|r.kpis.value|) else None)
    else if name == CANCELAMENTOS then (if r.cancelamentos.Some? then Some(|r.cancelamentos.value|) else None)
    else if name == CATEGORIA then (if r.categoria.Some? then Some(|r.categoria.value|) else None)
    else if name == REGIONAL then (if r.regional.Some? then Some(|r.regional.value|) else None)
    else None
  }
}
