/**
 * `map_rows_to_medicos` of app/main.py: the rows of
 * `SELECT id_medico, nombre, especialidad, correo_interno FROM medicos`
 * become `ClienteDB` records, whose fields are named `id`, `nombre`,
 * `especilidad` (so spelt in the model) and `email`.
 */
module Rows {

  /** One row of the SELECT, keyed by its columns `id_medico`, `nombre`, `especialidad`, `correo_interno`. */
  datatype MedicoRow = MedicoRow(idMedico: int, nombre: string, especialidad: string, correoInterno: string)

  /** `ClienteDB`: `id`, `nombre`, `especilidad`, `email`. */
  datatype ClienteDB = ClienteDB(id: int, nombre: string, especilidad: string, email: string)

  function ToCliente(row: MedicoRow): ClienteDB
  {
    ClienteDB(row.idMedico, row.nombre, row.especialidad, row.correoInterno)
  }

  /** The row a record came from: the renaming read backwards. */
  function ToRow(c: ClienteDB): MedicoRow
  {
    MedicoRow(c.id, c.nombre, c.especilidad, c.email)
  }

  /**
   * The list comprehension: one record per row, in the same order, each field
   * copied from its renamed column.
   */
  function MapRowsToMedicos(rows: seq<MedicoRow>): (r: seq<ClienteDB>)
    ensures |r| == |rows|
    ensures forall i :: 0 <= i < |rows| ==>
      r[i].id == rows[i].idMedico && r[i].nombre == rows[i].nombre
      && r[i].especilidad == rows[i].especialidad && r[i].email == rows[i].correoInterno
  {
    seq(|rows|, i requires 0 <= i < |rows| => ToCliente(rows[i]))
  }

  /** The renaming loses nothing: reading the records back gives the rows, and the other way round. */
  lemma {:induction false} MapRowsRoundTrip(rows: seq<MedicoRow>, records: seq<ClienteDB>)
    ensures seq(|rows|, i requires 0 <= i < |rows| => ToRow(MapRowsToMedicos(rows)[i])) == rows
    ensures MapRowsToMedicos(seq(|records|, i requires 0 <= i < |records| => ToRow(records[i]))) == records
  {
  }

  /** Mapping a list piece by piece is mapping it whole: order and grouping are kept. */
  lemma MapRowsAppend(a: seq<MedicoRow>, b: seq<MedicoRow>)
    ensures MapRowsToMedicos(a + b) == MapRowsToMedicos(a) + MapRowsToMedicos(b)
  {
  }
}
