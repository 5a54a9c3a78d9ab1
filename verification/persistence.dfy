/** The path and count logic of `salvar_dados_processados`: records are grouped
    in folders of 1000 consecutive ids, the two output files are named after the
    zero-padded id, and the metadata counts the channels whose estimated SNR is
    at least 15 dB. Writing the files, the clock and the global statistics are
    not modelled. */
module Persistence {
  import opened Numeric
  import opened Decimal
  import opened Quality

  datatype Option<T> = None | Some(value: T)

  // ---------------------------------------------------------------------------
  // Output layout.

  /** (ecg_id - 1) // 1000: the floor quotient, so the folder k holds exactly the
      ids 1000 k + 1 .. 1000 k + 1000 (for every integer id, negative included). */
  function ShardNumber(ecgId: int): (r: int)
    ensures 1000 * r + 1 <= ecgId <= 1000 * r + 1000
  {
    (ecgId - 1) / 1000
  }

  /** An id belongs to folder k exactly when it lies in k's block of 1000. */
  lemma ShardIff(ecgId: int, k: int)
    ensures ShardNumber(ecgId) == k <==> 1000 * k + 1 <= ecgId <= 1000 * k + 1000
  {
  }

  /** f"records{folder_number:03d}" */
  function FolderName(ecgId: int): string
  {
    "records" + FormatInt(ShardNumber(ecgId), 3)
  }

  /** f"{ecg_id:05d}_processed.npz" */
  function SignalFileName(ecgId: int): string
  {
    FormatInt(ecgId, 5) + "_processed.npz"
  }

  /** f"{ecg_id:05d}_metadata.json" */
  function MetadataFileName(ecgId: int): string
  {
    FormatInt(ecgId, 5) + "_metadata.json"
  }

  /** os.path.join(a, b) on POSIX: an absolute `b` replaces `a`; otherwise `b` is
      appended, with a '/' in between unless `a` is empty or already ends in one. */
  function Join(a: string, b: string): (r: string)
    ensures |r| >= |b| && r[|r| - |b|..] == b
    ensures !(|b| > 0 && b[0] == '/') ==> |r| >= |a| && r[..|a|] == a
    ensures !(|b| > 0 && b[0] == '/') && |a| > 0 && a[|a| - 1] != '/' ==>
      |r| == |a| + 1 + |b| && r[|a|] == '/'
  {
    if |b| > 0 && b[0] == '/' then b
    else if |a| == 0 || a[|a| - 1] == '/' then a + b
    else a + "/" + b
  }

  /** The two paths salvar_dados_processados returns:
      output_dir/recordsNNN/IIIII_processed.npz and .../IIIII_metadata.json. */
  function OutputPaths(outputDir: string, ecgId: int): (string, string)
  {
    var pastaDestino := Join(outputDir, FolderName(ecgId));
    (Join(pastaDestino, SignalFileName(ecgId)), Join(pastaDestino, MetadataFileName(ecgId)))
  }

  /** Ids 1 .. 1000 go to records000. */
  lemma FirstFolder(ecgId: int)
    requires 1 <= ecgId <= 1000
    ensures FolderName(ecgId) == "records000"
  {
    ShardIff(ecgId, 0);
    assert Digits(0) == "0";
    assert ZeroPad("0", 3) == "000";
  }

  /** The folder name is "records" followed by the shard padded to at least three
      characters, and it reads back as the shard: no digit is cut off. */
  lemma FolderNameRoundTrip(ecgId: int)
    ensures |FolderName(ecgId)| >= 10 && FolderName(ecgId)[..7] == "records"
    ensures IsIntText(FolderName(ecgId)[7..]) && ParseInt(FolderName(ecgId)[7..]) == ShardNumber(ecgId)
  {
    var k := ShardNumber(ecgId);
    FormatIntLength(k, 3);
    FormatIntRoundTrip(k, 3);
    assert FolderName(ecgId)[7..] == FormatInt(k, 3);
  }

  /** Two ids share a folder exactly when they share a shard. */
  lemma SameFolderIff(a: int, b: int)
    ensures FolderName(a) == FolderName(b) <==> ShardNumber(a) == ShardNumber(b)
  {
    if FolderName(a) == FolderName(b) {
      FolderNameRoundTrip(a);
      FolderNameRoundTrip(b);
    }
  }

  /** The file names are the id padded to at least five characters plus a
      14-character suffix, and the padded part reads back as the id. */
  lemma FileNameRoundTrip(ecgId: int)
    ensures |SignalFileName(ecgId)| >= 19 && |MetadataFileName(ecgId)| >= 19
    ensures var s := SignalFileName(ecgId);
      s[|s| - 14..] == "_processed.npz" && IsIntText(s[..|s| - 14]) && ParseInt(s[..|s| - 14]) == ecgId
    ensures var s := MetadataFileName(ecgId);
      s[|s| - 14..] == "_metadata.json" && IsIntText(s[..|s| - 14]) && ParseInt(s[..|s| - 14]) == ecgId
  {
    var f := FormatInt(ecgId, 5);
    FormatIntLength(ecgId, 5);
    FormatIntRoundTrip(ecgId, 5);
    assert SignalFileName(ecgId)[..|f|] == f;
    assert MetadataFileName(ecgId)[..|f|] == f;
  }

  /** Text without a '/'. */
  predicate NoSlash(s: string)
  {
    forall k :: 0 <= k < |s| ==> s[k] != '/'
  }

  lemma {:induction false} FormattedNoSlash(n: int, width: nat)
    ensures NoSlash(FormatInt(n, width))
  {
    var f := FormatInt(n, width);
    FormatIntRoundTrip(n, width);
    forall k | 0 <= k < |f|
      ensures f[k] != '/'
    {
      if |f| > 0 && f[0] == '-' && AllDigits(f[1..]) {
        if k > 0 {
          assert f[1..][k - 1] == f[k];
        }
      }
    }
  }

  lemma {:induction false} FileNamesNoSlash(ecgId: int)
    ensures NoSlash(SignalFileName(ecgId)) && NoSlash(MetadataFileName(ecgId))
    ensures NoSlash(FolderName(ecgId))
  {
    var f := FormatInt(ecgId, 5);
    FormattedNoSlash(ecgId, 5);
    FormattedNoSlash(ShardNumber(ecgId), 3);
    NoSlashConcat(f, "_processed.npz");
    NoSlashConcat(f, "_metadata.json");
    NoSlashConcat("records", FormatInt(ShardNumber(ecgId), 3));
  }

  lemma NoSlashConcat(a: string, b: string)
    requires NoSlash(a) && NoSlash(b)
    ensures NoSlash(a + b)
  {
    forall k | 0 <= k < |a + b|
      ensures (a + b)[k] != '/'
    {
      if k >= |a| {
        assert (a + b)[k] == b[k - |a|];
      }
    }
  }

  /** Both paths are the output directory, the folder and the file name, in that
      order and separated by '/' (the directory itself keeps its own trailing '/'). */
  lemma {:induction false} OutputPathsShape(outputDir: string, ecgId: int)
    ensures var (sinalPath, metadataPath) := OutputPaths(outputDir, ecgId);
      var pasta := Join(outputDir, FolderName(ecgId));
      |pasta| >= |outputDir| && pasta[..|outputDir|] == outputDir &&
      sinalPath == pasta + "/" + SignalFileName(ecgId) &&
      metadataPath == pasta + "/" + MetadataFileName(ecgId)
  {
    var pasta := Join(outputDir, FolderName(ecgId));
    assert FolderName(ecgId)[0] == 'r';
    assert pasta[|pasta| - 1] == FolderName(ecgId)[|FolderName(ecgId)| - 1];
    FileNamesNoSlash(ecgId);
    assert SignalFileName(ecgId)[0] != '/';
    assert MetadataFileName(ecgId)[0] != '/';
  }

  /** The signal file and the metadata file never coincide. */
  lemma {:induction false} OutputPathsDistinct(outputDir: string, ecgId: int)
    ensures OutputPaths(outputDir, ecgId).0 != OutputPaths(outputDir, ecgId).1
  {
    var (s, m) := OutputPaths(outputDir, ecgId);
    OutputPathsShape(outputDir, ecgId);
    FileNameRoundTrip(ecgId);
    assert s[|s| - 1] == SignalFileName(ecgId)[|SignalFileName(ecgId)| - 1] == 'z';
    assert m[|m| - 1] == MetadataFileName(ecgId)[|MetadataFileName(ecgId)| - 1] == 'n';
  }

  /** Within one output directory different ids never write to the same file. */
  lemma {:induction false} OutputPathsInjective(outputDir: string, a: int, b: int)
    requires OutputPaths(outputDir, a).0 == OutputPaths(outputDir, b).0
    ensures a == b
  {
    OutputPathsShape(outputDir, a);
    OutputPathsShape(outputDir, b);
    FileNamesNoSlash(a);
    FileNamesNoSlash(b);
    var p := OutputPaths(outputDir, a).0;
    var x := Join(outputDir, FolderName(a));
    var y := Join(outputDir, FolderName(b));
    LastComponent(x, SignalFileName(a), y, SignalFileName(b));
    FileNameRoundTrip(a);
    FileNameRoundTrip(b);
  }

  /** Of two equal paths ending in '/' + a name without '/', the names agree. */
  lemma LastComponent(x: string, u: string, y: string, v: string)
    requires x + "/" + u == y + "/" + v && NoSlash(u) && NoSlash(v)
    ensures u == v
  {
    SlashThenName(x, u);
    SlashThenName(y, v);
    var p := x + "/" + u;
    if |u| == |v| {
      assert u == p[|p| - |u|..] == v;
    } else {
      assert false;
    }
  }

  lemma SlashThenName(x: string, u: string)
    ensures (x + "/" + u)[|x|] == '/'
    ensures forall k :: 0 <= k < |u| ==> (x + "/" + u)[|x| + 1 + k] == u[k]
  {
  }

  // ---------------------------------------------------------------------------
  // The good-quality channel count.

  /** What salvar_dados_processados reads from the metadata dictionary:
      'n_channels' and 'qualidade' (each may be absent), where 'qualidade' maps
      'canal_i' to that channel's metric dictionary. */
  datatype Metadata = Metadata(nChannels: Option<int>, qualidade: Option<map<string, map<string, Float>>>)

  /** A channel's metric dictionary, as verificar_qualidade_sinal builds it. */
  function QualityEntry(q: ChannelQuality): (e: map<string, Float>)
    ensures "snr_estimado" in e && e["snr_estimado"] == q.snrEstimado
  {
    map["snr_estimado" := q.snrEstimado,
        "amplitude_maxima" := Num(q.amplitudeMaxima),
        "saturacao" := Num(q.saturacao),
        "zero_crossings" := Num(q.zeroCrossings as real),
        "rms" := Num(q.rms)]
  }

  /** The whole 'qualidade' dictionary of verificar_qualidade_sinal. */
  function QualityDict(metricas: map<string, ChannelQuality>): (d: map<string, map<string, Float>>)
    ensures d.Keys == metricas.Keys
    ensures forall key :: key in metricas ==> d[key] == QualityEntry(metricas[key])
  {
    map key | key in metricas :: QualityEntry(metricas[key])
  }

  /** `.get('snr_estimado', 0)` */
  function SnrOf(entry: map<string, Float>): Float
  {
    if "snr_estimado" in entry then entry["snr_estimado"] else Num(0.0)
  }

  /** `f'canal_{i}' in qualidade and qualidade[f'canal_{i}'].get('snr_estimado', 0) >= 15` */
  function GoodChannel(qualidade: map<string, map<string, Float>>, i: nat): (good: bool)
    ensures good ==> ChannelKey(i) in qualidade
    ensures ChannelKey(i) in qualidade && "snr_estimado" !in qualidade[ChannelKey(i)] ==> !good
    ensures ChannelKey(i) in qualidade && "snr_estimado" in qualidade[ChannelKey(i)] ==>
      var snr := qualidade[ChannelKey(i)]["snr_estimado"];
      (snr.NaN? || snr.NegInf? ==> !good) && (snr.PosInf? ==> good)
  {
    ChannelKey(i) in qualidade && AtLeast(SnrOf(qualidade[ChannelKey(i)]), 15.0)
  }

  /** sum(1 for i in range(n) if <channel i is good>): never more than the
      channels looked at. */
  function CountGood(qualidade: map<string, map<string, Float>>, n: int): (r: nat)
    ensures r <= if n > 0 then n else 0
    decreases if n > 0 then n else 0
  {
    if n <= 0 then 0
    else CountGood(qualidade, n - 1) + (if GoodChannel(qualidade, n - 1) then 1 else 0)
  }

  /** 'canais_com_boa_qualidade' of the 'estatisticas' block: absent (None) for a
      signal that is not two-dimensional, 0 when the metadata has no 'qualidade',
      and otherwise the count over range(metadata.get('n_channels', 0)). */
  function CanaisComBoaQualidade(md: Metadata, twoDimensional: bool): (r: Option<nat>)
    ensures r.Some? <==> twoDimensional
    ensures r.Some? && md.qualidade.None? ==> r.value == 0
    ensures r.Some? ==> r.value <= match md.nChannels case Some(n) => (if n > 0 then n else 0) case None => 0
  {
    if !twoDimensional then None
    else match md.qualidade
      case None => Some(0)
      case Some(q) =>
        var n := match md.nChannels case Some(n) => n case None => 0;
        Some(CountGood(q, n))
  }

  /** All n channels are counted exactly when every one of them is good. */
  lemma {:induction false} CountGoodAll(qualidade: map<string, map<string, Float>>, n: nat)
    ensures CountGood(qualidade, n) == n <==> forall i :: 0 <= i < n ==> GoodChannel(qualidade, i)
  {
    if n > 0 {
      CountGoodAll(qualidade, n - 1);
    }
  }

  /** No channel is counted when none is good, in particular when 'qualidade' is
      empty or every SNR is below 15 (a missing SNR counts as 0). */
  lemma {:induction false} CountGoodNone(qualidade: map<string, map<string, Float>>, n: int)
    ensures CountGood(qualidade, n) == 0 <==> forall i :: 0 <= i < n ==> !GoodChannel(qualidade, i)
    decreases if n > 0 then n else 0
  {
    if n > 0 {
      CountGoodNone(qualidade, n - 1);
    }
  }

  /** Channels that are not good add nothing: past the last good channel the count
      stays put, so an n_channels larger than the number of 'canal_i' keys does not
      inflate it. */
  lemma {:induction false} CountGoodStable(qualidade: map<string, map<string, Float>>, m: nat, n: int)
    requires m <= n && forall i :: m <= i < n ==> !GoodChannel(qualidade, i)
    ensures CountGood(qualidade, n) == CountGood(qualidade, m)
    decreases n - m
  {
    if n > m {
      CountGoodStable(qualidade, m, n - 1);
    }
  }

  /** On the dictionary verificar_qualidade_sinal returns for m channels, channel i
      is good exactly when i < m and its SNR is at least 15, and the count never
      exceeds m whatever n_channels says. */
  lemma {:induction false} CountGoodOfQuality(metricas: map<string, ChannelQuality>, m: nat, n: int)
    requires metricas.Keys == ChannelKeys(m)
    ensures forall i: nat :: ChannelKey(i) in metricas <==> i < m
    ensures forall i: nat :: GoodChannel(QualityDict(metricas), i) <==>
      ChannelKey(i) in metricas && AtLeast(metricas[ChannelKey(i)].snrEstimado, 15.0)
    ensures CountGood(QualityDict(metricas), n) <= m
  {
    var d := QualityDict(metricas);
    ChannelKeysMembers(m);
    forall i: nat
      ensures ChannelKey(i) in metricas <==> i < m
    {
      if ChannelKey(i) in metricas {
        var j :| 0 <= j < m && ChannelKey(i) == ChannelKey(j);
        ChannelKeyInjective(i, j);
      }
    }
    if n > m {
      CountGoodStable(d, m, n);
    }
  }
}
