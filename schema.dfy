/** The column check that guards the whole analysis: it runs only when the
    uploaded sheet has all four columns it reads; other columns are ignored. */
module Schema {

  const RequiredColumns: set<string> := {"Tambak", "Produksi_kg", "Biaya", "Pendapatan"}

  /** `{...}.issubset(df.columns)`: each of the four names is a column. */
  function HasRequiredColumns(columns: set<string>): (ok: bool)
    ensures ok <==> "Tambak" in columns && "Produksi_kg" in columns
                    && "Biaya" in columns && "Pendapatan" in columns
  {
    RequiredColumns <= columns
  }

  /** Extra columns never make a sheet fail the check. */
  lemma ExtraColumnsAllowed(columns: set<string>, extra: set<string>)
    requires HasRequiredColumns(columns)
    ensures HasRequiredColumns(columns + extra)
  {
  }

  /** Leaving out any one required column makes the sheet fail the check. */
  lemma MissingColumnRejected(columns: set<string>, c: string)
    requires c in RequiredColumns
    ensures !HasRequiredColumns(columns - {c})
  {
  }
}
