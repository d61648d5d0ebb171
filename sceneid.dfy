/** Decoding of the positional fields of a Landsat scene id such as
    `LC08_L1TP_223067_20200826_X`: the third field is the tile (path/row),
    the fourth the acquisition date. */
module SceneId {
  import opened Values
  import opened PyStr
  import opened TileDate

  /** `get_tile_id`: the third '_'-separated field; IndexError when there
      are fewer than three. */
  function GetTileId(sceneId: string): (r: Result<string, Exception>)
    ensures r.Err? ==> r.error == IndexError
  {
    var fragments := Split(sceneId, "_");
    if |fragments| < 3 then Err(IndexError) else Ok(fragments[2])
  }

  /** `get_tile_date`: the fourth field read by strptime '%Y%m%d';
      IndexError when there are fewer than four fields, ValueError when
      strptime refuses the field. */
  function GetTileDate(sceneId: string): (r: Result<Date, Exception>)
    ensures r.Ok? ==> ValidDate(r.value)
    ensures r.Err? ==> r.error == IndexError || r.error == ValueError
  {
    var fragments := Split(sceneId, "_");
    if |fragments| < 4 then Err(IndexError)
    else
      match Strptime(fragments[3])
      case None => Err(ValueError)
      case Some(d) => Ok(d)
  }

  /** get_tile_id fails exactly when the id has fewer than two '_'. */
  lemma TileIdFailsIff(sceneId: string)
    ensures GetTileId(sceneId).Err? <==> Count(sceneId, '_') < 2
  {
    SplitCount(sceneId, '_');
  }

  /** get_tile_date fails on the index exactly when the id has fewer than
      three '_'. */
  lemma TileDateIndexErrorIff(sceneId: string)
    ensures GetTileDate(sceneId) == Err(IndexError) <==> Count(sceneId, '_') < 3
  {
    SplitCount(sceneId, '_');
  }

  lemma JoinThree(f: seq<string>)
    requires |f| >= 3
    ensures Join(f, "_") == f[0] + "_" + f[1] + "_" + f[2]
                            + (if |f| == 3 then "" else "_" + Join(f[3..], "_"))
  {
    var f1, f2 := f[1..], f[2..];
    var tail := if |f| == 3 then "" else "_" + Join(f[3..], "_");
    JoinCons(f, "_");
    assert f1[0] == f[1] && f1[1..] == f2 && f2[0] == f[2];
    JoinCons(f1, "_");
    if |f| == 3 {
      assert Join(f2, "_") == f[2] + tail;
    } else {
      assert f2[1..] == f[3..];
      JoinCons(f2, "_");
      AppendAssoc(f[2], "_", Join(f[3..], "_"));
    }
    var a, b := f[0] + "_", f[1] + "_";
    // f[0] + "_" + (f[1] + "_" + (f[2] + tail)), reassociated to the left
    AppendAssoc(a, b, f[2] + tail);
    AppendAssoc(a + b, f[2], tail);
    AppendAssoc(a, f[1], "_");
  }

  /** The tile id is the third field: the id consists of two fields free of
      '_', the tile id (free of '_'), and a remainder that is empty or
      starts with '_'. */
  lemma TileIdFields(sceneId: string) returns (a: string, b: string, rest: string)
    requires GetTileId(sceneId).Ok?
    ensures var v := GetTileId(sceneId).value;
      && sceneId == a + "_" + b + "_" + v + rest
      && '_' !in a && '_' !in b && '_' !in v
      && (rest == "" || rest[0] == '_')
  {
    var f := Split(sceneId, "_");
    SplitJoin(sceneId, "_");
    JoinThree(f);
    a, b := f[0], f[1];
    rest := if |f| == 3 then "" else "_" + Join(f[3..], "_");
    SplitPiecesFree(sceneId, "_", 0);
    SplitPiecesFree(sceneId, "_", 1);
    SplitPiecesFree(sceneId, "_", 2);
    NoOccurrenceOfChar(f[0], '_');
    NoOccurrenceOfChar(f[1], '_');
    NoOccurrenceOfChar(f[2], '_');
  }

  /** Conversely, whatever stands between the second and the third '_' (or
      the end) is the tile id. */
  lemma TileIdOfFields(a: string, b: string, v: string, rest: string)
    requires '_' !in a && '_' !in b && '_' !in v
    requires rest == "" || rest[0] == '_'
    ensures GetTileId(a + "_" + b + "_" + v + rest) == Ok(v)
  {
    var s := a + "_" + b + "_" + v + rest;
    var x := b + ['_'] + (v + rest);
    assert s == a + ['_'] + x;
    SplitAfterPiece(a, '_', x);
    SplitAfterPiece(b, '_', v + rest);
    SplitLastOrNext(v, '_', rest);
    var t := Split(v + rest, "_");
    assert Split(s, "_") == [a] + ([b] + t);
    assert Split(s, "_")[2] == t[0];
  }

  /** Whatever stands between the third and the fourth '_' (or the end) is
      the date field that strptime reads. */
  lemma TileDateOfFields(a: string, b: string, c: string, f: string, rest: string)
    requires '_' !in a && '_' !in b && '_' !in c && '_' !in f
    requires rest == "" || rest[0] == '_'
    ensures GetTileDate(a + "_" + b + "_" + c + "_" + f + rest)
            == (if Strptime(f).Some? then Ok(Strptime(f).value) else Err(ValueError))
  {
    var s := a + "_" + b + "_" + c + "_" + f + rest;
    var y := c + ['_'] + (f + rest);
    var x := b + ['_'] + y;
    assert s == a + ['_'] + x;
    SplitAfterPiece(a, '_', x);
    SplitAfterPiece(b, '_', y);
    SplitAfterPiece(c, '_', f + rest);
    SplitLastOrNext(f, '_', rest);
    var t := Split(f + rest, "_");
    assert Split(s, "_") == [a] + ([b] + ([c] + t));
    assert Split(s, "_")[3] == t[0];
  }

  /** An example: `LC08_L1TP_223067_20200826_X` is tile 223067. */
  lemma ExampleTileId()
    ensures GetTileId("LC08_L1TP_223067_20200826_X") == Ok("223067")
  {
    assert "LC08_L1TP_223067_20200826_X" == "LC08" + "_" + "L1TP" + "_" + "223067" + "_20200826_X";
    TileIdOfFields("LC08", "L1TP", "223067", "_20200826_X");
  }

  lemma ExampleDateField()
    ensures Strptime("20200826") == Some(Date(2020, 8, 26))
  {
    var f := "20200826";
    assert AllDigits(f);
    ExamplePositional();
    StrptimeEightDigits(f);
  }

  lemma ExamplePositional()
    ensures Positional("20200826") == Date(2020, 8, 26)
  {
    var f := "20200826";
    assert f[..4] == "2020" && f[4..6] == "08" && f[6..] == "26";
    NumValue4("2020");
    NumValue2("08");
    NumValue2("26");
  }

  /** An example: `LC08_L1TP_223067_20200826_X` was acquired on
      2020-08-26. */
  lemma ExampleTileDate()
    ensures GetTileDate("LC08_L1TP_223067_20200826_X") == Ok(Date(2020, 8, 26))
  {
    var f := "20200826";
    assert "LC08_L1TP_223067_20200826_X" == "LC08" + "_" + "L1TP" + "_" + "223067" + "_" + f + "_X";
    TileDateOfFields("LC08", "L1TP", "223067", f, "_X");
    ExampleDateField();
  }
}
