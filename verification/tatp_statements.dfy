/**
 * The ten parameterised statements the dbbench TATP workers prepare
 * (tatp_statement_sql). Each statement is kept as the pieces between its '?'
 * placeholders, so that its placeholder count, which every bind sequence must
 * match, is a proved fact rather than a count taken by hand.
 */
module TatpStatements {
  import opened Text
  import opened Tatp

  /** The statement index of each transaction step, as the workers use them. */
  const GetSubscriberStmt: nat := 0
  const GetNewDestinationStmt: nat := 1
  const GetAccessDataStmt: nat := 2
  const UpdateSubscriberBitStmt: nat := 3
  const UpdateSpecialFacilityStmt: nat := 4
  const UpdateLocationStmt: nat := 5
  const GetSubscriberIdStmt: nat := 6
  const GetSpecialFacilityTypesStmt: nat := 7
  const InsertCallForwardingStmt: nat := 8
  const DeleteCallForwardingStmt: nat := 9

  /** The number of parameters statement k takes. */
  const Arity: seq<nat> := [1, 4, 2, 2, 3, 2, 1, 1, 5, 3]

  /** Statement k with its '?' placeholders taken out: the statement is these pieces joined by "?". */
  function Template(k: nat): (pieces: seq<string>)
    requires k < 10
  {
    match k
    case 0 => ["SELECT * " + "FROM subscriber " + "WHERE s_id = ", ";"]
    case 1 => [DestinationSelect + DestinationFrom, " AND sf.sf_type = ", DestinationActive + DestinationJoin, " AND ", " < cf.end_time;"]
    case 2 => ["SELECT data1, data2, " + "data3, data4 " + "FROM access_info " + "WHERE s_id = ", " AND ai_type = ", ";"]
    case 3 => ["UPDATE subscriber " + "SET bit_1 = ", " " + "WHERE s_id = ", ";"]
    case 4 => ["UPDATE special_facility " + "SET data_a = ", " " + "WHERE s_id = ", " AND sf_type = ", ";"]
    case 5 => ["UPDATE subscriber " + "SET vlr_location = ", " " + "WHERE sub_nbr = ", ";"]
    case 6 => ["SELECT s_id " + "FROM subscriber " + "WHERE sub_nbr = ", ";"]
    case 7 => ["SELECT sf_type " + "FROM special_facility " + "WHERE s_id = ", ";"]
    case 8 => ["INSERT INTO call_forwarding " + "VALUES (", ", ", ", ", ", ", ", ", ");"]
    case 9 => ["DELETE FROM call_forwarding " + "WHERE s_id = ", " AND sf_type = ", " AND start_time = ", ";"]
  }

  const DestinationSelect: string := "SELECT cf.numberx "
  const DestinationFrom: string := "FROM special_facility AS sf, " + "call_forwarding AS cf " + "WHERE sf.s_id = "
  const DestinationActive: string := " AND sf.is_active = 1 " + "  AND cf.s_id = sf.s_id "
  const DestinationJoin: string := "AND cf.sf_type = sf.sf_type " + "  AND cf.start_time <= "

  /** tatp_statement_sql: the ten statements in index order. */
  function StatementSql(): (sql: seq<string>)
    ensures |sql| == 10
  {
    seq(10, (k: int) requires 0 <= k < 10 => Join(Template(k), "?"))
  }

  lemma DestinationNoMark()
    ensures '?' !in DestinationSelect + DestinationFrom && '?' !in DestinationActive + DestinationJoin
  {
    NoMarkSelect();
    NoMarkFrom();
    NoMarkActive();
    NoMarkJoin();
  }

  lemma NoMarkSelect() ensures '?' !in DestinationSelect {}
  lemma NoMarkFrom() ensures '?' !in DestinationFrom {}
  lemma NoMarkActive() ensures '?' !in DestinationActive {}
  lemma NoMarkJoin() ensures '?' !in DestinationJoin {}

  lemma TemplateShape0()
    ensures |Template(0)| == 2
    ensures forall i | 0 <= i < 2 :: '?' !in Template(0)[i]
    ensures Template(0)[1][|Template(0)[1]| - 1] == ';'
  {
  }

  lemma TemplateShape1()
    ensures |Template(1)| == 5
    ensures forall i | 0 <= i < 5 :: '?' !in Template(1)[i]
    ensures Template(1)[4][|Template(1)[4]| - 1] == ';'
  {
    DestinationNoMark();
  }

  lemma TemplateShape2()
    ensures |Template(2)| == 3
    ensures forall i | 0 <= i < 3 :: '?' !in Template(2)[i]
    ensures Template(2)[2][|Template(2)[2]| - 1] == ';'
  {
  }

  lemma TemplateShape3()
    ensures |Template(3)| == 3
    ensures forall i | 0 <= i < 3 :: '?' !in Template(3)[i]
    ensures Template(3)[2][|Template(3)[2]| - 1] == ';'
  {
  }

  lemma TemplateShape4()
    ensures |Template(4)| == 4
    ensures forall i | 0 <= i < 4 :: '?' !in Template(4)[i]
    ensures Template(4)[3][|Template(4)[3]| - 1] == ';'
  {
  }

  lemma TemplateShape5()
    ensures |Template(5)| == 3
    ensures forall i | 0 <= i < 3 :: '?' !in Template(5)[i]
    ensures Template(5)[2][|Template(5)[2]| - 1] == ';'
  {
  }

  lemma TemplateShape6()
    ensures |Template(6)| == 2
    ensures forall i | 0 <= i < 2 :: '?' !in Template(6)[i]
    ensures Template(6)[1][|Template(6)[1]| - 1] == ';'
  {
  }

  lemma TemplateShape7()
    ensures |Template(7)| == 2
    ensures forall i | 0 <= i < 2 :: '?' !in Template(7)[i]
    ensures Template(7)[1][|Template(7)[1]| - 1] == ';'
  {
  }

  lemma TemplateShape8()
    ensures |Template(8)| == 6
    ensures forall i | 0 <= i < 6 :: '?' !in Template(8)[i]
    ensures Template(8)[5][|Template(8)[5]| - 1] == ';'
  {
  }

  lemma TemplateShape9()
    ensures |Template(9)| == 4
    ensures forall i | 0 <= i < 4 :: '?' !in Template(9)[i]
    ensures Template(9)[3][|Template(9)[3]| - 1] == ';'
  {
  }

  /**
   * The access_info lookup selects exactly the columns of AccessSelectList, in
   * that order, so result column AccessColumn(f) holds field f.
   */
  lemma AccessLookupSelectList()
    ensures Template(GetAccessDataStmt)[0] == "SELECT " + Join(AccessSelectList, ", ") + " " + "FROM access_info " + "WHERE s_id = "
  {
    JoinAccessSelectList();
    assert "SELECT data1, data2, " + "data3, data4 " == "SELECT " + "data1, data2, data3, data4" + " ";
  }

  lemma JoinAccessSelectList()
    ensures Join(AccessSelectList, ", ") == "data1, data2, data3, data4"
  {
    assert Join(["data4"], ", ") == "data4";
    assert Join(["data3", "data4"], ", ") == "data3, data4";
    assert Join(["data2", "data3", "data4"], ", ") == "data2, data3, data4";
  }

  /** Statement k's pieces: one more than its parameters, none holding a '?', the last ending in ';'. */
  lemma TemplateShape(k: nat)
    requires k < 10
    ensures |Template(k)| == Arity[k] + 1
    ensures forall i | 0 <= i < |Template(k)| :: '?' !in Template(k)[i]
    ensures |Template(k)[Arity[k]]| >= 1 && Template(k)[Arity[k]][|Template(k)[Arity[k]]| - 1] == ';'
  {
    match k
    case 0 => TemplateShape0();
    case 1 => TemplateShape1();
    case 2 => TemplateShape2();
    case 3 => TemplateShape3();
    case 4 => TemplateShape4();
    case 5 => TemplateShape5();
    case 6 => TemplateShape6();
    case 7 => TemplateShape7();
    case 8 => TemplateShape8();
    case 9 => TemplateShape9();
  }

  /**
   * tatp_statement_sql returns ten statements; statement k holds exactly
   * Arity[k] placeholders and ends with ';'.
   */
  lemma StatementPlaceholders()
    ensures |StatementSql()| == 10
    ensures forall k | 0 <= k < 10 :: Count(StatementSql()[k], '?') == Arity[k]
    ensures forall k | 0 <= k < 10 :: |StatementSql()[k]| >= 1 && StatementSql()[k][|StatementSql()[k]| - 1] == ';'
  {
    forall k | 0 <= k < 10
      ensures Count(StatementSql()[k], '?') == Arity[k]
      ensures |StatementSql()[k]| >= 1 && StatementSql()[k][|StatementSql()[k]| - 1] == ';'
    {
      TemplateShape(k);
      CountJoin(Template(k), '?');
      JoinLast(Template(k), "?");
    }
  }
}
